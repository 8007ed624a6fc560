/** Promoting a manually reviewed subtitle file: uncertain speaker labels lose
    their question mark, redaction placeholders are dropped, cues left without
    dialogue are removed, and anything else is refused. */
module Promotion {
  import opened Names
  import opened Subtitles

  datatype Failure = MalformedCue | BadCueNumber | UnreviewedLine(cue: int, line: string)

  datatype Result<T> = Done(value: T) | Failed(failure: Failure)

  /** `int` on a trimmed string.  Only this is assumed of it: no number is
      spelled by no characters. */
  type NumberParser = string -> Option<int>

  ghost predicate RejectsEmpty(parse: NumberParser) { parse("").None? }

  // ------------------------------------------------------------------ labels

  predicate IsLetter(c: char) { 'A' <= c <= 'Z' || 'a' <= c <= 'z' }

  predicate IsLabelChar(c: char) { IsLetter(c) || c == ' ' || c == '-' }

  function LabelRun(s: string): (n: nat)
    ensures n <= |s| && (forall i :: 0 <= i < n ==> IsLabelChar(s[i])) && (n < |s| ==> !IsLabelChar(s[n]))
  {
    if s == "" || !IsLabelChar(s[0]) then 0 else
    var n := LabelRun(s[1..]);
    assert forall i :: 0 < i < n + 1 ==> s[i] == s[1..][i - 1];
    n + 1
  }

  /** The speaker at the start of a line: a letter and up to 48 more label
      characters, as many as there are. */
  function SpeakerEnd(s: string): Option<nat> {
    var n := LabelRun(s);
    if 1 <= n <= 49 && IsLetter(s[0]) then Some(n) else None
  }

  /** What follows a colon, blanks skipped; there has to be something. */
  function Spoken(s: string): Option<string> {
    var t := StripLeft(s);
    if t == "" then None else Some(t)
  }

  /** `NAME?: text`, rewritten without the question mark. */
  function Uncertain(s: string): Option<string> {
    match SpeakerEnd(s)
    case None => None
    case Some(n) =>
      if n + 1 < |s| && s[n] == '?' && s[n + 1] == ':' && Spoken(s[n + 2..]).Some?
      then Some(s[..n] + ": " + Spoken(s[n + 2..]).value) else None
  }

  /** `NAME: text`. */
  predicate Verified(s: string) {
    match SpeakerEnd(s)
    case None => false
    case Some(n) => n < |s| && s[n] == ':' && Spoken(s[n + 1..]).Some?
  }

  predicate IsRedaction(s: string) { s == "***" || s == "- ***." || s == "--" }

  // ---------------------------------------------------------------- one cue

  datatype Dialogue = Dialogue(lines: seq<string>, promoted: nat, removed: nat)

  function AddLine(d: Dialogue, line: string, cue: int): Result<Dialogue> {
    var s := Strip(line);
    if s == "" then Done(d)
    else if Uncertain(s).Some? then Done(d.(lines := d.lines + [Uncertain(s).value], promoted := d.promoted + 1))
    else if Verified(s) then Done(d.(lines := d.lines + [s]))
    else if IsRedaction(s) then Done(d.(removed := d.removed + 1))
    else Failed(UnreviewedLine(cue, s))
  }

  function AddLines(lines: seq<string>, cue: int): Result<Dialogue> {
    if lines == [] then Done(Dialogue([], 0, 0)) else
    match AddLines(lines[..|lines| - 1], cue)
    case Failed(f) => Failed(f)
    case Done(d) => AddLine(d, lines[|lines| - 1], cue)
  }

  /** A cue as far as it is read: number line, time line, dialogue. */
  datatype Cue = Cue(head: string, time: string, number: int, dialogue: Dialogue)

  function ReadCue(block: string, parse: NumberParser): Result<Cue> {
    var lines := Lines(block);
    if |lines| < 2 then Failed(MalformedCue) else
    var head := Strip(lines[0]);
    match parse(head)
    case None => Failed(BadCueNumber)
    case Some(number) =>
      match AddLines(lines[2..], number)
      case Failed(f) => Failed(f)
      case Done(d) => Done(Cue(head, Strip(lines[1]), number, d))
  }

  function PrintCue(c: Cue): string { JoinLines([c.head, c.time] + c.dialogue.lines) }

  // -------------------------------------------------------------- whole text

  /** `kept` holds the cues whose blocks are emitted. */
  datatype Outcome = Outcome(kept: seq<Cue>, promoted: nat, removedLines: nat, removedCues: seq<int>)

  function AddBlock(o: Outcome, block: string, parse: NumberParser): Result<Outcome> {
    if Strip(block) == "" then Done(o) else
    match ReadCue(block, parse)
    case Failed(f) => Failed(f)
    case Done(c) =>
      var counted := o.(promoted := o.promoted + c.dialogue.promoted, removedLines := o.removedLines + c.dialogue.removed);
      Done(if c.dialogue.lines == [] then counted.(removedCues := counted.removedCues + [c.number])
           else counted.(kept := counted.kept + [c]))
  }

  function AddBlocks(blocks: seq<string>, parse: NumberParser): Result<Outcome> {
    if blocks == [] then Done(Outcome([], 0, 0, [])) else
    match AddBlocks(blocks[..|blocks| - 1], parse)
    case Failed(f) => Failed(f)
    case Done(o) => AddBlock(o, blocks[|blocks| - 1], parse)
  }

  function PrintCues(cues: seq<Cue>): seq<string> { seq(|cues|, i requires 0 <= i < |cues| => PrintCue(cues[i])) }

  function Render(cues: seq<Cue>): string { JoinBlocks(PrintCues(cues)) + "\n" }

  function Promote(text: string, parse: NumberParser): Result<Outcome> { AddBlocks(Blocks(text), parse) }

  datatype Promoted = Promoted(text: string, promoted: nat, removedLines: nat, removedCues: seq<int>)

  function Report(o: Outcome): Promoted { Promoted(Render(o.kept), o.promoted, o.removedLines, o.removedCues) }

  /** Once a prefix fails, the whole fails the same way. */
  lemma {:induction false} FailureStands(blocks: seq<string>, n: nat, parse: NumberParser)
    requires n <= |blocks| && AddBlocks(blocks[..n], parse).Failed?
    ensures AddBlocks(blocks, parse) == AddBlocks(blocks[..n], parse)
    decreases |blocks|
  {
    if n < |blocks| {
      assert blocks[..|blocks| - 1][..n] == blocks[..n];
      FailureStands(blocks[..|blocks| - 1], n, parse);
    } else {
      assert blocks[..n] == blocks;
    }
  }

  lemma {:induction false} LineFailureStands(lines: seq<string>, n: nat, cue: int)
    requires n <= |lines| && AddLines(lines[..n], cue).Failed?
    ensures AddLines(lines, cue) == AddLines(lines[..n], cue)
    decreases |lines|
  {
    if n < |lines| {
      assert lines[..|lines| - 1][..n] == lines[..n];
      LineFailureStands(lines[..|lines| - 1], n, cue);
    } else {
      assert lines[..n] == lines;
    }
  }

  /** The loop over the dialogue lines of one cue. */
  method CollectDialogue(lines: seq<string>, cue: int) returns (r: Result<Dialogue>)
    ensures r == AddLines(lines, cue)
  {
    hide Strip, Uncertain, Verified, IsRedaction;
    var promotedLines: seq<string>, promotedCount: nat, removedCount: nat := [], 0, 0;
    for i := 0 to |lines|
      invariant AddLines(lines[..i], cue) == Done(Dialogue(promotedLines, promotedCount, removedCount))
    {
      assert lines[..i + 1][..i] == lines[..i];
      var stripped := Strip(lines[i]);
      if stripped == "" { continue; }
      var uncertain := Uncertain(stripped);
      if uncertain.Some? {
        promotedLines, promotedCount := promotedLines + [uncertain.value], promotedCount + 1;
        continue;
      }
      if Verified(stripped) {
        promotedLines := promotedLines + [stripped];
        continue;
      }
      if IsRedaction(stripped) {
        removedCount := removedCount + 1;
        continue;
      }
      LineFailureStands(lines, i + 1, cue);
      return Failed(UnreviewedLine(cue, stripped));
    }
    assert lines[..|lines|] == lines;
    return Done(Dialogue(promotedLines, promotedCount, removedCount));
  }

  /** Reading one cue: the number first, then the dialogue loop. */
  method TakeCue(block: string, parse: NumberParser) returns (r: Result<Cue>)
    ensures r == ReadCue(block, parse)
  {
    hide AddLines, Strip, Lines;
    var lines := Lines(block);
    if |lines| < 2 { return Failed(MalformedCue); }
    var number := parse(Strip(lines[0]));
    if number.None? { return Failed(BadCueNumber); }
    var dialogue := CollectDialogue(lines[2..], number.value);
    if dialogue.Failed? { return Failed(dialogue.failure); }
    return Done(Cue(Strip(lines[0]), Strip(lines[1]), number.value, dialogue.value));
  }

  /** The loop over the cues. */
  method PromoteText(text: string, parse: NumberParser) returns (r: Result<Promoted>)
    ensures match Promote(text, parse)
            case Failed(f) => r == Failed(f)
            case Done(o) => r == Done(Report(o))
  {
    hide ReadCue, Strip, Blocks, JoinBlocks, PrintCue;
    var blocks := Blocks(text);
    var kept: seq<Cue>, outputBlocks: seq<string>, removedCueNumbers: seq<int> := [], [], [];
    var promotedCount: nat, removedLineCount: nat := 0, 0;
    for i := 0 to |blocks|
      invariant AddBlocks(blocks[..i], parse) == Done(Outcome(kept, promotedCount, removedLineCount, removedCueNumbers))
      invariant outputBlocks == PrintCues(kept)
    {
      assert blocks[..i + 1][..i] == blocks[..i];
      if Strip(blocks[i]) == "" { continue; }
      var cue := TakeCue(blocks[i], parse);
      if cue.Failed? {
        FailureStands(blocks, i + 1, parse);
        return Failed(cue.failure);
      }
      var d := cue.value.dialogue;
      promotedCount, removedLineCount := promotedCount + d.promoted, removedLineCount + d.removed;
      if d.lines == [] {
        removedCueNumbers := removedCueNumbers + [cue.value.number];
        continue;
      }
      kept, outputBlocks := kept + [cue.value], outputBlocks + [PrintCue(cue.value)];
    }
    assert blocks[..|blocks|] == blocks;
    return Done(Promoted(JoinBlocks(outputBlocks) + "\n", promotedCount, removedLineCount, removedCueNumbers));
  }

  // ------------------------------------------------------------ conservation

  /** The numbers of the cues in a list of blocks, blank blocks skipped. */
  function Numbers(blocks: seq<string>, parse: NumberParser): seq<int> {
    if blocks == [] then [] else
    var (front, last) := (Numbers(blocks[..|blocks| - 1], parse), blocks[|blocks| - 1]);
    if Strip(last) == "" then front
    else match ReadCue(last, parse)
         case Done(c) => front + [c.number]
         case Failed(_) => front
  }

  /** `c` is `a` and `b` merged, each in its own order. */
  predicate Merges<T(==)>(a: seq<T>, b: seq<T>, c: seq<T>)
    decreases |c|
  {
    if c == [] then a == [] && b == []
    else
      var last := c[|c| - 1];
      || (a != [] && a[|a| - 1] == last && Merges(a[..|a| - 1], b, c[..|c| - 1]))
      || (b != [] && b[|b| - 1] == last && Merges(a, b[..|b| - 1], c[..|c| - 1]))
  }

  function NumbersOf(cues: seq<Cue>): seq<int> { seq(|cues|, i requires 0 <= i < |cues| => cues[i].number) }

  lemma MergesOneMore<T>(a: seq<T>, b: seq<T>, c: seq<T>, x: T)
    requires Merges(a, b, c)
    ensures Merges(a + [x], b, c + [x]) && Merges(a, b + [x], c + [x])
  {
    assert (a + [x])[..|a|] == a && (b + [x])[..|b|] == b && (c + [x])[..|c|] == c;
  }

  /** No cue is lost, doubled or moved: the kept and the removed numbers, each
      in order, merge to the numbers of the input. */
  lemma {:induction false} CuesAreConserved(blocks: seq<string>, parse: NumberParser)
    requires AddBlocks(blocks, parse).Done?
    ensures var o := AddBlocks(blocks, parse).value;
      Merges(NumbersOf(o.kept), o.removedCues, Numbers(blocks, parse))
  {
    hide ReadCue, Strip;
    if blocks != [] {
      var front, last := blocks[..|blocks| - 1], blocks[|blocks| - 1];
      CuesAreConserved(front, parse);
      var o := AddBlocks(front, parse).value;
      if Strip(last) != "" {
        var c := ReadCue(last, parse).value;
        MergesOneMore(NumbersOf(o.kept), o.removedCues, Numbers(front, parse), c.number);
        assert NumbersOf(o.kept + [c]) == NumbersOf(o.kept) + [c.number];
      }
    }
  }

  function CountSpoken(lines: seq<string>): nat {
    if lines == [] then 0 else
    CountSpoken(lines[..|lines| - 1]) + (if Strip(lines[|lines| - 1]) == "" then 0 else 1)
  }

  lemma {:induction false} LinesOfCueAreConserved(lines: seq<string>, cue: int)
    requires AddLines(lines, cue).Done?
    ensures var d := AddLines(lines, cue).value;
      CountSpoken(lines) == |d.lines| + d.removed && d.promoted <= |d.lines|
  {
    hide Strip, Uncertain, Verified, IsRedaction;
    if lines != [] { LinesOfCueAreConserved(lines[..|lines| - 1], cue); }
  }

  /** Dialogue lines of all cues. */
  function Dialogues(blocks: seq<string>): nat {
    if blocks == [] then 0 else
    var last := blocks[|blocks| - 1];
    Dialogues(blocks[..|blocks| - 1])
    + (if Strip(last) == "" || |Lines(last)| < 2 then 0 else CountSpoken(Lines(last)[2..]))
  }

  function KeptLines(cues: seq<Cue>): nat {
    if cues == [] then 0 else KeptLines(cues[..|cues| - 1]) + |cues[|cues| - 1].dialogue.lines|
  }

  lemma CueIsRead(block: string, parse: NumberParser)
    requires ReadCue(block, parse).Done?
    ensures var c := ReadCue(block, parse).value;
      && |Lines(block)| >= 2 && c.head == Strip(Lines(block)[0]) && c.time == Strip(Lines(block)[1])
      && parse(c.head) == Some(c.number) && AddLines(Lines(block)[2..], c.number) == Done(c.dialogue)
  {
  }

  /** Every dialogue line is emitted or counted as a removed redaction. */
  lemma {:induction false} LinesAreConserved(blocks: seq<string>, parse: NumberParser)
    requires AddBlocks(blocks, parse).Done?
    ensures var o := AddBlocks(blocks, parse).value;
      Dialogues(blocks) == KeptLines(o.kept) + o.removedLines && o.promoted <= KeptLines(o.kept)
  {
    hide ReadCue, Strip, Lines, AddLines, CountSpoken;
    if blocks != [] {
      var front, last := blocks[..|blocks| - 1], blocks[|blocks| - 1];
      LinesAreConserved(front, parse);
      if Strip(last) != "" {
        var c := ReadCue(last, parse).value;
        var o := AddBlocks(front, parse).value;
        CueIsRead(last, parse);
        LinesOfCueAreConserved(Lines(last)[2..], c.number);
        assert (o.kept + [c])[..|o.kept|] == o.kept;
      }
    }
  }
}
