/** Promoting what was promoted: when a second pass changes nothing. */
module PromotionLaws {
  import opened Names
  import opened Subtitles
  import opened Promotion

  // ------------------------------------------------------------- stable lines

  /** A line the next pass emits as it is. */
  predicate Stable(l: string) {
    Trimmed(l) && OneLine(l) && Verified(l) && Uncertain(l) == None
  }

  lemma VerifiedIsNotUncertain(s: string)
    requires Verified(s)
    ensures Uncertain(s) == None
  {
  }

  lemma {:induction false} LabelRunIs(s: string, n: nat)
    requires n <= |s| && (forall i :: 0 <= i < n ==> IsLabelChar(s[i])) && (n < |s| ==> !IsLabelChar(s[n]))
    ensures LabelRun(s) == n
  {
  }

  lemma LabelCharsBreakNoLine(c: char)
    ensures IsLabelChar(c) || c == ':' ==> !IsBreak(c)
    ensures IsLetter(c) ==> !IsSpace(c)
  {
  }

  lemma StripLeftOne(t: string)
    requires t != "" && !IsSpace(t[0])
    ensures StripLeft(" " + t) == t
  {
    assert (" " + t)[1..] == t;
  }

  lemma LastOfTail(s: string, k: nat, t: string)
    requires k <= |s| && t == StripLeft(s[k..]) && t != ""
    ensures t[|t| - 1] == s[|s| - 1] && forall c :: c in t ==> c in s
  {
    hide IsSpace;
    var u := s[k..];
    assert u[|u| - |t|..] == t;
    assert t[|t| - 1] == u[|u| - 1] == s[|s| - 1];
    forall c | c in t ensures c in s {
      assert c in u;
    }
  }

  lemma LabelledParts(speaker: string, t: string)
    requires 1 <= |speaker| <= 49 && IsLetter(speaker[0]) && forall i :: 0 <= i < |speaker| ==> IsLabelChar(speaker[i])
    requires Trimmed(t)
    ensures var u := speaker + ": " + t;
      SpeakerEnd(u) == Some(|speaker|) && u[|speaker|] == ':' && Spoken(u[|speaker| + 1..]) == Some(t)
  {
    hide IsSpace, Spoken, LabelRun, StripLeft, IsLabelChar;
    LabelledTail(speaker, t);
    SpokenAfterBlank(t);
    LabelledRun(speaker, t);
  }

  lemma LabelledTail(speaker: string, t: string)
    ensures var u := speaker + ": " + t; u[|speaker|] == ':' && u[|speaker| + 1..] == " " + t
  {
  }

  lemma SpokenAfterBlank(t: string)
    requires Trimmed(t)
    ensures Spoken(" " + t) == Some(t)
  {
    StripLeftOne(t);
    hide StripLeft, IsSpace;
  }

  lemma LabelledRun(speaker: string, t: string)
    requires speaker != "" && forall i :: 0 <= i < |speaker| ==> IsLabelChar(speaker[i])
    ensures var u := speaker + ": " + t; LabelRun(u) == |speaker| && u[0] == speaker[0]
  {
    var (u, n) := (speaker + ": " + t, |speaker|);
    assert forall i :: 0 <= i < n ==> u[i] == speaker[i];
    assert u[n] == ':';
    LabelRunIs(u, n);
  }

  lemma LabelledIsOneLine(speaker: string, t: string)
    requires 1 <= |speaker| && IsLetter(speaker[0]) && forall i :: 0 <= i < |speaker| ==> IsLabelChar(speaker[i])
    requires Trimmed(t) && OneLine(t)
    ensures OneLine(speaker + ": " + t) && Trimmed(speaker + ": " + t)
  {
    hide IsSpace, IsBreak, IsLabelChar;
    var u := speaker + ": " + t;
    assert u[0] == speaker[0] && u[|u| - 1] == t[|t| - 1];
    LabelCharsBreakNoLine(u[0]);
    forall i | 0 <= i < |u| ensures !IsBreak(u[i]) {
      LabelCharsBreakNoLine(u[i]);
      BlankBreaksNoLine();
      if i >= |speaker| + 2 { assert u[i] == t[i - |speaker| - 2] && u[i] in t; }
    }
  }

  lemma BlankBreaksNoLine()
    ensures !IsBreak(' ')
  {
  }

  /** A speaker, a colon and some text make a verified line. */
  lemma LabelledIsStable(speaker: string, t: string)
    requires 1 <= |speaker| <= 49 && IsLetter(speaker[0]) && forall i :: 0 <= i < |speaker| ==> IsLabelChar(speaker[i])
    requires Trimmed(t) && OneLine(t)
    ensures Stable(speaker + ": " + t)
  {
    hide IsSpace, IsBreak, IsLabelChar, SpeakerEnd, Spoken, Uncertain;
    LabelledParts(speaker, t);
    LabelledIsOneLine(speaker, t);
    hide Trimmed, OneLine;
    assert Verified(speaker + ": " + t);
    VerifiedIsNotUncertain(speaker + ": " + t);
  }

  lemma UncertainParts(s: string) returns (n: nat, t: string)
    requires Uncertain(s).Some?
    ensures 1 <= n <= 49 && n + 2 <= |s| && IsLetter(s[0]) && forall i :: 0 <= i < n ==> IsLabelChar(s[i])
    ensures t == StripLeft(s[n + 2..]) && t != "" && Uncertain(s).value == s[..n] + ": " + t
  {
    n := SpeakerEnd(s).value;
    t := StripLeft(s[n + 2..]);
    hide StripLeft, IsSpace;
  }

  /** A rewritten label is a verified one, on one trimmed line. */
  lemma RewrittenIsStable(s: string)
    requires Trimmed(s) && OneLine(s) && Uncertain(s).Some?
    ensures Stable(Uncertain(s).value)
  {
    hide IsSpace, IsBreak, IsLabelChar, Stable, Uncertain, Trimmed, OneLine, StripLeft, IsLetter;
    var n, t := UncertainParts(s);
    TailIsClean(s, n + 2, t);
    HeadIsLabel(s, n);
    LabelledIsStable(s[..n], t);
  }

  lemma TailIsClean(s: string, k: nat, t: string)
    requires Trimmed(s) && OneLine(s) && k <= |s| && t == StripLeft(s[k..]) && t != ""
    ensures Trimmed(t) && OneLine(t)
  {
    hide IsSpace, IsBreak, StripLeft;
    LastOfTail(s, k, t);
  }

  lemma HeadIsLabel(s: string, n: nat)
    requires 1 <= n <= |s| && IsLetter(s[0]) && forall i :: 0 <= i < n ==> IsLabelChar(s[i])
    ensures |s[..n]| == n && IsLetter(s[..n][0]) && forall i :: 0 <= i < n ==> IsLabelChar(s[..n][i])
  {
  }

  lemma {:induction false} PromotedLinesAreStable(lines: seq<string>, cue: int)
    requires AddLines(lines, cue).Done? && forall l :: l in lines ==> OneLine(l)
    ensures forall l :: l in AddLines(lines, cue).value.lines ==> Stable(l)
  {
    if lines != [] {
      var last := lines[|lines| - 1];
      assert last in lines;
      assert forall l :: l in lines[..|lines| - 1] ==> l in lines;
      PromotedLinesAreStable(lines[..|lines| - 1], cue);
      LineIsStable(AddLines(lines[..|lines| - 1], cue).value, last, cue);
    }
  }

  lemma LineIsStable(d: Dialogue, line: string, cue: int)
    requires OneLine(line) && AddLine(d, line, cue).Done? && forall l :: l in d.lines ==> Stable(l)
    ensures forall l :: l in AddLine(d, line, cue).value.lines ==> Stable(l)
  {
    var s := Strip(line);
    StripTrims(line);
    hide Strip, Trimmed, Uncertain, Verified;
    if s != "" {
      if Uncertain(s).Some? { RewrittenIsStable(s); } else if Verified(s) { VerifiedIsNotUncertain(s); }
    }
  }

  lemma {:induction false} StableLinesStay(lines: seq<string>, cue: int)
    requires forall l :: l in lines ==> Stable(l)
    ensures AddLines(lines, cue) == Done(Dialogue(lines, 0, 0))
  {
    hide Strip, Trimmed, Uncertain, Verified;
    if lines != [] {
      assert forall l :: l in lines[..|lines| - 1] ==> l in lines;
      StableLinesStay(lines[..|lines| - 1], cue);
      assert lines[|lines| - 1] in lines;
      StripTrimmed(lines[|lines| - 1]);
      TrimmedIsNotEmpty(lines[|lines| - 1]);
      assert lines[..|lines| - 1] + [lines[|lines| - 1]] == lines;
    }
  }

  lemma TrimmedIsNotEmpty(s: string)
    requires Trimmed(s)
    ensures s != ""
  {
  }

  // --------------------------------------------------------------- good cues

  /** What holds of every cue a pass emits. */
  predicate Good(c: Cue, parse: NumberParser) {
    && Trimmed(c.head) && OneLine(c.head) && parse(c.head) == Some(c.number)
    && (c.time == "" || Trimmed(c.time)) && OneLine(c.time)
    && c.dialogue.lines != [] && forall l :: l in c.dialogue.lines ==> Stable(l)
  }

  lemma StrippedLine(line: string)
    requires OneLine(line)
    ensures OneLine(Strip(line)) && (Strip(line) == "" || Trimmed(Strip(line)))
  {
    hide Strip, IsSpace, IsBreak;
    StripTrims(line);
  }

  lemma ReadCueIsGood(block: string, parse: NumberParser)
    requires RejectsEmpty(parse) && ReadCue(block, parse).Done? && ReadCue(block, parse).value.dialogue.lines != []
    ensures Good(ReadCue(block, parse).value, parse)
  {
    hide Strip, Stable, AddLines, Trimmed, IsSpace, IsBreak, LinesFrom, ReadCue;
    var lines := Lines(block);
    LinesAreOneLine(block, "");
    CueIsRead(block, parse);
    StrippedLine(lines[0]);
    StrippedLine(lines[1]);
    assert forall l :: l in lines[2..] ==> l in lines;
    PromotedLinesAreStable(lines[2..], ReadCue(block, parse).value.number);
  }

  lemma {:induction false} KeptCuesAreGood(blocks: seq<string>, parse: NumberParser)
    requires RejectsEmpty(parse) && AddBlocks(blocks, parse).Done?
    ensures forall c :: c in AddBlocks(blocks, parse).value.kept ==> Good(c, parse)
  {
    hide ReadCue, Strip, Good;
    if blocks != [] {
      var last := blocks[|blocks| - 1];
      KeptCuesAreGood(blocks[..|blocks| - 1], parse);
      if Strip(last) != "" && ReadCue(last, parse).Done? && ReadCue(last, parse).value.dialogue.lines != [] {
        ReadCueIsGood(last, parse);
      }
    }
  }

  /** The cue the next pass reads: the same, nothing rewritten or removed. */
  function Settled(c: Cue): Cue { c.(dialogue := Dialogue(c.dialogue.lines, 0, 0)) }

  lemma PrintedIsTight(c: Cue, parse: NumberParser)
    requires Good(c, parse) && c.time != ""
    ensures Tight(PrintCue(c)) && Lines(PrintCue(c)) == [c.head, c.time] + c.dialogue.lines
  {
    var lines := [c.head, c.time] + c.dialogue.lines;
    forall l | l in lines ensures Trimmed(l) && OneLine(l) && l != "" {}
    JoinedLinesAreTight(lines);
    LinesOfJoined(lines);
  }

  lemma ReadPrintedCue(c: Cue, parse: NumberParser)
    requires Good(c, parse) && c.time != ""
    ensures ReadCue(PrintCue(c), parse) == Done(Settled(c)) && Settled(c).dialogue.lines != []
  {
    PrintedIsTight(c, parse);
    StableLinesStay(c.dialogue.lines, c.number);
    StripTrimmed(c.head);
    StripTrimmed(c.time);
    ReadFromLines(PrintCue(c), c.head, c.time, c.dialogue.lines, c.number, Dialogue(c.dialogue.lines, 0, 0), parse);
  }

  lemma ReadFromLines(block: string, head: string, time: string, lines: seq<string>, number: int, d: Dialogue, parse: NumberParser)
    requires Lines(block) == [head, time] + lines && Strip(head) == head && Strip(time) == time
    requires parse(head) == Some(number) && AddLines(lines, number) == Done(d)
    ensures ReadCue(block, parse) == Done(Cue(head, time, number, d))
  {
    hide Lines, Strip, AddLines;
    assert Lines(block)[2..] == lines;
  }

  // ------------------------------------------------------ the blocks of a pass

  /** The blocks the separator finds in a printed cue: with a blank time line
      the number line comes apart from the dialogue. */
  function Own(c: Cue): seq<string> {
    if c.time != "" then [PrintCue(c)] else [c.head, JoinLines(c.dialogue.lines)]
  }

  function Pieces(cues: seq<Cue>): seq<string> {
    if cues == [] then [] else Own(cues[0]) + Pieces(cues[1..])
  }

  lemma OwnIsTight(c: Cue, parse: NumberParser)
    requires Good(c, parse)
    ensures forall b :: b in Own(c) ==> Tight(b)
    ensures JoinBlocks(Own(c)) == PrintCue(c)
  {
    if c.time != "" {
      PrintedIsTight(c, parse);
    } else {
      JoinedLinesAreTight([c.head]);
      JoinedLinesAreTight(c.dialogue.lines);
      var (h, d) := (c.head, c.dialogue.lines);
      BlankTime(h, d);
      assert Own(c)[1..] == [JoinLines(d)];
    }
  }

  lemma BlankTime(head: string, lines: seq<string>)
    requires lines != []
    ensures JoinLines([head, ""] + lines) == head + "\n\n" + JoinLines(lines)
  {
    assert ([head, ""] + lines)[1..] == [""] + lines;
    assert ([""] + lines)[1..] == lines;
    assert head + "\n" + ("" + "\n" + JoinLines(lines)) == head + "\n\n" + JoinLines(lines);
  }

  lemma {:induction false} JoinAppend(a: seq<string>, b: seq<string>)
    requires a != [] && b != []
    ensures JoinBlocks(a + b) == JoinBlocks(a) + "\n\n" + JoinBlocks(b)
  {
    if |a| == 1 {
      assert (a + b)[1..] == b;
    } else {
      assert (a + b)[1..] == a[1..] + b;
      JoinAppend(a[1..], b);
      Around(a[0], JoinBlocks(a[1..]), JoinBlocks(b));
    }
  }

  lemma Around(x: string, y: string, z: string)
    ensures x + "\n\n" + (y + "\n\n" + z) == x + "\n\n" + y + "\n\n" + z
  {
  }

  lemma {:induction false} PiecesJoin(cues: seq<Cue>, parse: NumberParser)
    requires cues != [] && forall c :: c in cues ==> Good(c, parse)
    ensures Pieces(cues) != [] && JoinBlocks(Pieces(cues)) == JoinBlocks(PrintCues(cues))
    ensures forall b :: b in Pieces(cues) ==> Tight(b)
  {
    hide Tight, PrintCue, Good;
    OwnIsTight(cues[0], parse);
    if |cues| == 1 {
      assert Pieces(cues[1..]) == [];
      assert Own(cues[0]) + [] == Own(cues[0]);
      assert PrintCues(cues) == [PrintCue(cues[0])];
    } else {
      PiecesJoin(cues[1..], parse);
      JoinAppend(Own(cues[0]), Pieces(cues[1..]));
      assert PrintCues(cues)[1..] == PrintCues(cues[1..]);
    }
  }

  lemma NewlineIsSpace()
    ensures IsSpace('\n')
  {
  }

  lemma StripLineEnd(s: string)
    requires Trimmed(s)
    ensures Strip(s + "\n") == s
  {
    NewlineIsSpace();
    hide IsSpace;
    var t := s + "\n";
    assert StripLeft(t) == t by { assert t[0] == s[0]; }
    assert t[|t| - 1] == '\n' && t[..|t| - 1] == s;
    assert StripRight(s) == s;
  }

  /** What the next pass cuts the emitted text into. */
  lemma BlocksOfRendered(cues: seq<Cue>, parse: NumberParser)
    requires cues != [] && forall c :: c in cues ==> Good(c, parse)
    ensures Blocks(Render(cues)) == Pieces(cues)
  {
    PiecesJoin(cues, parse);
    BlocksOfJoined(Pieces(cues));
    StripLineEnd(JoinBlocks(Pieces(cues)));
  }

  // ------------------------------------------------------------- second pass

  function SettledAll(cues: seq<Cue>): seq<Cue> { seq(|cues|, i requires 0 <= i < |cues| => Settled(cues[i])) }

  lemma {:induction false} PiecesAppend(a: seq<Cue>, b: seq<Cue>)
    ensures Pieces(a + b) == Pieces(a) + Pieces(b)
  {
    if a == [] {
      assert a + b == b;
    } else {
      assert (a + b)[1..] == a[1..] + b;
      PiecesAppend(a[1..], b);
    }
  }

  lemma TightIsNotBlank(b: string)
    requires Tight(b)
    ensures Strip(b) == b && b != ""
  {
    StripTrimmed(b);
  }

  lemma {:induction false} TimedCuesStay(cues: seq<Cue>, parse: NumberParser)
    requires forall c :: c in cues ==> Good(c, parse) && c.time != ""
    ensures AddBlocks(Pieces(cues), parse) == Done(Outcome(SettledAll(cues), 0, 0, []))
  {
    hide ReadCue, Strip, PrintCue, Good, Tight, Own, AddBlock;
    if cues == [] {
      assert SettledAll(cues) == [];
    } else {
      var front, last := cues[..|cues| - 1], cues[|cues| - 1];
      assert last in cues && forall c :: c in front ==> c in cues;
      TimedCuesStay(front, parse);
      LastPiece(cues);
      hide Own, AddBlocks, Pieces, AddBlock;
      AddBlocksOneMore(Pieces(front), PrintCue(last), parse);
      AddTimedCue(Outcome(SettledAll(front), 0, 0, []), last, parse);
      assert SettledAll(front) + [Settled(last)] == SettledAll(cues);
    }
  }

  lemma LastPiece(cues: seq<Cue>)
    requires cues != [] && cues[|cues| - 1].time != ""
    ensures Pieces(cues) == Pieces(cues[..|cues| - 1]) + [PrintCue(cues[|cues| - 1])]
  {
    hide PrintCue;
    PiecesSplit(cues, |cues| - 1);
    assert cues[|cues| - 1 + 1..] == [] && Pieces([]) == [];
  }

  lemma AddTimedCue(o: Outcome, c: Cue, parse: NumberParser)
    requires Good(c, parse) && c.time != ""
    ensures AddBlock(o, PrintCue(c), parse) == Done(o.(kept := o.kept + [Settled(c)]))
  {
    hide ReadCue, Strip, PrintCue, Good, Tight;
    ReadPrintedCue(c, parse);
    PrintedIsTight(c, parse);
    TightIsNotBlank(PrintCue(c));
  }

  lemma SettledPrintTheSame(cues: seq<Cue>)
    ensures Render(SettledAll(cues)) == Render(cues)
  {
    assert PrintCues(SettledAll(cues)) == PrintCues(cues);
  }

  /** A cue whose time line is blank makes the next pass fail. */
  lemma BlankTimeFails(cues: seq<Cue>, i: nat, parse: NumberParser)
    requires forall c :: c in cues ==> Good(c, parse)
    requires i < |cues| && cues[i].time == "" && forall j :: 0 <= j < i ==> cues[j].time != ""
    ensures AddBlocks(Pieces(cues), parse) == Failed(MalformedCue)
  {
    var (front, c) := (cues[..i], cues[i]);
    hide ReadCue, Strip, PrintCue, Good, Tight, Lines, JoinLines;
    assert c in cues && forall d :: d in front ==> d in cues;
    LoneHead(c, parse);
    TimedCuesStay(front, parse);
    PiecesSplit(cues, i);
    assert Own(c) == [c.head, JoinLines(c.dialogue.lines)];
    HeadFails(Pieces(front), c.head, [JoinLines(c.dialogue.lines)] + Pieces(cues[i + 1..]), parse);
    Regroup(Pieces(front), c.head, JoinLines(c.dialogue.lines), Pieces(cues[i + 1..]));
  }

  lemma Regroup(a: seq<string>, h: string, d: string, r: seq<string>)
    ensures a + [h] + ([d] + r) == a + [h, d] + r
  {
  }

  lemma HeadFails(front: seq<string>, head: string, rest: seq<string>, parse: NumberParser)
    requires AddBlocks(front, parse).Done? && Strip(head) != "" && ReadCue(head, parse) == Failed(MalformedCue)
    ensures AddBlocks(front + [head] + rest, parse) == Failed(MalformedCue)
  {
    hide ReadCue, Strip;
    AddBlocksOneMore(front, head, parse);
    var pieces := front + [head] + rest;
    assert pieces[..|front| + 1] == front + [head];
    hide AddBlocks;
    FailureStands(pieces, |front| + 1, parse);
  }

  lemma PiecesSplit(cues: seq<Cue>, i: nat)
    requires i < |cues|
    ensures Pieces(cues) == Pieces(cues[..i]) + Own(cues[i]) + Pieces(cues[i + 1..])
  {
    hide Own;
    assert cues == cues[..i] + cues[i..];
    PiecesAppend(cues[..i], cues[i..]);
    assert cues[i..][1..] == cues[i + 1..];
  }

  lemma AddBlocksOneMore(blocks: seq<string>, block: string, parse: NumberParser)
    requires AddBlocks(blocks, parse).Done?
    ensures AddBlocks(blocks + [block], parse) == AddBlock(AddBlocks(blocks, parse).value, block, parse)
  {
    assert (blocks + [block])[..|blocks|] == blocks;
    hide AddBlock;
  }

  lemma LoneHead(c: Cue, parse: NumberParser)
    requires Good(c, parse)
    ensures Strip(c.head) != "" && ReadCue(c.head, parse) == Failed(MalformedCue)
  {
    hide Lines, Strip, IsSpace, IsBreak, Stable, AddLines;
    StripTrimmed(c.head);
    LinesOfJoined([c.head]);
    assert JoinLines([c.head]) == c.head;
  }

  lemma FirstBlank(cues: seq<Cue>) returns (i: nat)
    requires exists c :: c in cues && c.time == ""
    ensures i < |cues| && cues[i].time == "" && forall j :: 0 <= j < i ==> cues[j].time != ""
  {
    i := 0;
    while cues[i].time != ""
      invariant i < |cues| && forall j :: 0 <= j < i ==> cues[j].time != ""
      decreases |cues| - i
    {
      if i + 1 == |cues| {
        var c :| c in cues && c.time == "";
        var k :| 0 <= k < |cues| && cues[k] == c;
        assert k < i || k == i;
      }
      i := i + 1;
    }
  }

  // ------------------------------------------------------ the input condition

  /** A line that is kept, as it is or rewritten. */
  predicate Speaks(line: string) { Uncertain(Strip(line)).Some? || Verified(Strip(line)) }

  /** If anything is said in the cue, its time line is not blank. */
  predicate Timed(block: string) {
    Strip(block) != "" && |Lines(block)| >= 2 && (exists l :: l in Lines(block)[2..] && Speaks(l)) ==>
      Strip(Lines(block)[1]) != ""
  }

  lemma {:induction false} KeptLinesSpeak(lines: seq<string>, cue: int)
    requires AddLines(lines, cue).Done?
    ensures AddLines(lines, cue).value.lines != [] <==> exists l :: l in lines && Speaks(l)
  {
    hide Strip, Uncertain, Verified, IsRedaction, Speaks;
    if lines != [] {
      var front, last := lines[..|lines| - 1], lines[|lines| - 1];
      KeptLinesSpeak(front, cue);
      LineIsKept(AddLines(front, cue).value, last, cue);
      assert lines == front + [last];
    }
  }

  lemma LineIsKept(d: Dialogue, line: string, cue: int)
    requires AddLine(d, line, cue).Done?
    ensures AddLine(d, line, cue).value.lines != [] <==> d.lines != [] || Speaks(line)
  {
    hide Strip, IsRedaction;
  }

  lemma {:induction false} KeptCuesAreTimed(blocks: seq<string>, parse: NumberParser)
    requires AddBlocks(blocks, parse).Done?
    ensures (forall c :: c in AddBlocks(blocks, parse).value.kept ==> c.time != "") <==> forall b :: b in blocks ==> Timed(b)
  {
    hide ReadCue, Strip, Timed;
    if blocks != [] {
      var front, last := blocks[..|blocks| - 1], blocks[|blocks| - 1];
      KeptCuesAreTimed(front, parse);
      BlockIsTimed(AddBlocks(front, parse).value, last, parse);
      assert blocks == front + [last];
    }
  }

  lemma BlockIsTimed(o: Outcome, block: string, parse: NumberParser)
    requires AddBlock(o, block, parse).Done?
    ensures (forall c :: c in AddBlock(o, block, parse).value.kept ==> c.time != "") <==>
            (forall c :: c in o.kept ==> c.time != "") && Timed(block)
  {
    hide ReadCue, Strip, Lines, AddLines, Speaks;
    if Strip(block) != "" {
      var c := ReadCue(block, parse).value;
      CueIsRead(block, parse);
      KeptLinesSpeak(Lines(block)[2..], c.number);
    }
  }

  /** Promotion is idempotent exactly when every cue of the input in which
      something is said has a time line that is not blank.  A blank one splits
      its cue, and the next pass refuses the file. */
  lemma PromotionIsIdempotentExactly(text: string, parse: NumberParser)
    requires RejectsEmpty(parse) && Promote(text, parse).Done?
    ensures var o := Promote(text, parse).value;
      var again := Promote(Render(o.kept), parse);
      if forall b :: b in Blocks(text) ==> Timed(b)
      then again.Done? && Report(again.value) == Promoted(Render(o.kept), 0, 0, [])
      else again == Failed(MalformedCue)
  {
    var cues := Promote(text, parse).value.kept;
    KeptCuesAreGood(Blocks(text), parse);
    KeptCuesAreTimed(Blocks(text), parse);
    SettledPrintTheSame(cues);
    hide Timed, Good;
    if cues == [] {
      NothingLeft(parse);
    } else {
      BlocksOfRendered(cues, parse);
      if forall c :: c in cues ==> c.time != "" {
        TimedCuesStay(cues, parse);
      } else {
        var i := FirstBlank(cues);
        BlankTimeFails(cues, i, parse);
      }
    }
  }

  const FORM_FEED: char := '\U{0C}'

  /** A cue with two form feeds where its time line should be. */
  function FormFeedCue(head: string, speech: string): string { head + [FORM_FEED, FORM_FEED] + speech }

  /** A failing family: any cue number and any verified line, with form feeds
      between them.  The file is promoted, and its promotion is refused. */
  lemma FormFeedIsRefusedLater(head: string, speech: string, n: int, parse: NumberParser)
    requires RejectsEmpty(parse) && parse(head) == Some(n) && Trimmed(head) && OneLine(head)
    requires Trimmed(speech) && OneLine(speech) && Verified(speech)
    ensures var text := FormFeedCue(head, speech);
      Promote(text, parse).Done? && Promote(Render(Promote(text, parse).value.kept), parse) == Failed(MalformedCue)
  {
    hide ReadCue, Timed, Lines, Strip, FormFeedCue, Blocks, BlocksFrom, Trimmed, OneLine, Verified, AddBlocks, Render;
    var text := FormFeedCue(head, speech);
    FormFeedBlocks(head, speech);
    FormFeedRead(head, speech, n, parse);
    OneBlock(text, parse);
    assert text in Blocks(text);
    PromotionIsIdempotentExactly(text, parse);
  }

  /** Cue number one, spoken by A. */
  lemma FormFeedExample(parse: NumberParser)
    requires RejectsEmpty(parse) && parse("1") == Some(1)
    ensures var text := FormFeedCue("1", "A: x");
      Promote(text, parse).Done? && Promote(Render(Promote(text, parse).value.kept), parse) == Failed(MalformedCue)
  {
    hide FormFeedCue, Promote, Verified, Trimmed, OneLine, Render, Strip;
    SpokenLine();
    FormFeedIsRefusedLater("1", "A: x", 1, parse);
  }

  lemma SpokenLine()
    ensures Trimmed("1") && OneLine("1")
    ensures Trimmed("A: x") && OneLine("A: x") && Verified("A: x")
  {
    hide Verified, OneLine, Trimmed;
    ExampleIsTrimmed();
    ExampleIsOneLine();
    ExampleIsVerified();
  }

  lemma ExampleIsTrimmed()
    ensures Trimmed("1") && Trimmed("A: x")
  {
  }

  lemma ExampleIsOneLine()
    ensures OneLine("1") && OneLine("A: x")
  {
    assert forall c :: c in "1" ==> c == '1';
    assert forall c :: c in "A: x" ==> c == 'A' || c == ':' || c == ' ' || c == 'x';
  }

  lemma ExampleIsVerified()
    ensures Verified("A: x")
  {
    hide LabelRun, StripLeft, IsSpace;
    LabelRunIs("A: x", 1);
    assert "A: x"[1 + 1..] == " " + "x";
    BlankBefore();
  }

  lemma BlankBefore()
    ensures StripLeft(" " + "x") == "x"
  {
    StripLeftOne("x");
  }

  lemma OneBlock(block: string, parse: NumberParser)
    requires Strip(block) != "" && ReadCue(block, parse).Done?
    ensures AddBlocks([block], parse).Done?
  {
    hide ReadCue, Strip;
    assert [block][..0] == [];
    assert AddBlocks([], parse) == Done(Outcome([], 0, 0, []));
  }

  lemma FormFeedBlocks(head: string, speech: string)
    requires Trimmed(head) && OneLine(head) && Trimmed(speech) && OneLine(speech)
    ensures var text := FormFeedCue(head, speech); Strip(text) == text && Blocks(text) == [text] && text != ""
  {
    var text := FormFeedCue(head, speech);
    forall i | 0 <= i < |text|
      ensures text[i] != '\r' && text[i] != '\n'
    {
      if i < |head| {
        assert text[i] == head[i] && head[i] in head;
      } else if i >= |head| + 2 {
        assert text[i] == speech[i - |head| - 2] && speech[i - |head| - 2] in speech;
      }
    }
    assert text[0] == head[0] && text[|text| - 1] == speech[|speech| - 1];
    hide IsSpace, IsBreak;
    StripTrimmed(text);
    ReadLastBlock(text);
  }

  lemma FormFeedLines(head: string, speech: string)
    requires OneLine(head) && speech != "" && OneLine(speech)
    ensures Lines(FormFeedCue(head, speech)) == [head, "", speech]
  {
    var (one, two) := ([FORM_FEED] + speech, [FORM_FEED, FORM_FEED] + speech);
    assert FormFeedCue(head, speech) == head + two && two[1..] == one && one[1..] == speech;
    ReadLine(head, two, "");
    assert "" + head == head && "" + speech == speech && speech + "" == speech;
    BreakLine(two, head);
    BreakLine(one, "");
    ReadLine(speech, "", "");
    hide OneLine;
    assert LinesFrom("", speech) == [speech];
  }

  lemma BreakLine(s: string, line: string)
    requires s != "" && s[0] == FORM_FEED
    ensures LinesFrom(s, line) == [line] + LinesFrom(s[1..], "")
  {
  }

  lemma FormFeedRead(head: string, speech: string, n: int, parse: NumberParser)
    requires parse(head) == Some(n) && Trimmed(head) && OneLine(head)
    requires Trimmed(speech) && OneLine(speech) && Verified(speech)
    ensures var text := FormFeedCue(head, speech); ReadCue(text, parse).Done? && !Timed(text)
  {
    hide FormFeedCue, Lines, Strip, Verified, Trimmed, OneLine, Blocks, AddLines, Uncertain;
    TrimmedIsNotEmpty(speech);
    var text := FormFeedCue(head, speech);
    FormFeedLines(head, speech);
    FormFeedBlocks(head, speech);
    StripTrimmed(head);
    StripTrimmed(speech);
    BlankStrips();
    VerifiedIsNotUncertain(speech);
    OneLineCue(speech, n);
    assert [head, "", speech][2..] == [speech];
    assert speech in Lines(text)[2..] && Speaks(speech);
  }

  lemma BlankStrips()
    ensures Strip("") == ""
  {
  }

  lemma OneLineCue(speech: string, n: int)
    requires Strip(speech) == speech && speech != "" && Verified(speech) && Uncertain(speech) == None
    ensures AddLines([speech], n).Done?
  {
    hide Strip, Verified, Uncertain;
    assert [speech][..0] == [];
    assert AddLines([], n) == Done(Dialogue([], 0, 0));
  }

  lemma NothingLeft(parse: NumberParser)
    ensures Promote(Render([]), parse) == Done(Outcome([], 0, 0, []))
  {
    assert PrintCues([]) == [] && Render([]) == "\n";
    assert Strip("\n") == "" by { NewlineIsSpace(); assert "\n"[1..] == ""; }
    hide Strip, IsSpace, Render;
    assert Blocks("\n") == [""];
    assert [""][..0] == [];
    assert AddBlocks([], parse) == Done(Outcome([], 0, 0, []));
  }
}
