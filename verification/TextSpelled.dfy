/** Characters, one by one: what counts as a blank, where lines and cues are
    cut, and how a JSON text spells its characters. */
module TextSpelled {
  import opened Names
  import Codec
  import Order
  import RequestWire
  import Subtitles

  // ---------------------------------------------------------------- subtitles

  function Blanks(): set<int> {
    {9, 10, 11, 12, 13, 28, 29, 30, 31, 32, 133, 160, 5760, 8192, 8193, 8194, 8195, 8196, 8197, 8198, 8199, 8200, 8201, 8202,
     8232, 8233, 8239, 8287, 12288}
  }

  /** The blanks and line breaks of Python's `str`, by code point. */
  lemma BlanksSpelled(c: char)
    ensures Subtitles.IsSpace(c) <==> c as int in Blanks()
    ensures Subtitles.IsBreak(c) <==> c as int in {10, 11, 12, 13, 28, 29, 30, 133, 8232, 8233}
  {
  }

  /** Stripping takes blanks off both ends and nothing else. */
  lemma StripExactly(s: string)
    ensures exists i: nat, j: nat :: StrippedTo(s, i, j)
  {
    var l := Subtitles.StripLeft(s);
    var r := Subtitles.StripRight(l);
    LeftBlanks(s);
    RightBlanks(l);
    assert Subtitles.Strip(s) == r;
    StripsTo(s, l, r);
  }

  lemma StripsTo(s: string, l: string, r: string)
    requires |r| <= |l| <= |s| && s[|s| - |l|..] == l && l[..|r|] == r && Subtitles.Strip(s) == r
    requires (l != "" ==> !Subtitles.IsSpace(l[0])) && (r != "" ==> !Subtitles.IsSpace(r[|r| - 1]))
    requires forall k :: 0 <= k < |s| - |l| ==> Subtitles.IsSpace(s[k])
    requires forall k :: |r| <= k < |l| ==> Subtitles.IsSpace(l[k])
    ensures StrippedTo(s, |s| - |l|, |s| - |l| + |r|)
  {
    hide Subtitles.IsSpace, Subtitles.Strip;
    var i := |s| - |l|;
    assert forall k :: i <= k < |s| ==> s[k] == l[k - i];
    assert s[i..i + |r|] == r;
  }

  predicate StrippedTo(s: string, i: nat, j: nat) {
    && i <= j <= |s| && Subtitles.Strip(s) == s[i..j]
    && (forall k :: 0 <= k < i ==> Subtitles.IsSpace(s[k])) && (forall k :: j <= k < |s| ==> Subtitles.IsSpace(s[k]))
    && (i < j ==> !Subtitles.IsSpace(s[i]) && !Subtitles.IsSpace(s[j - 1]))
  }

  lemma {:induction false} LeftBlanks(s: string)
    ensures forall k :: 0 <= k < |s| - |Subtitles.StripLeft(s)| ==> Subtitles.IsSpace(s[k])
  {
    hide Subtitles.IsSpace;
    if s != "" && Subtitles.IsSpace(s[0]) {
      LeftBlanks(s[1..]);
      assert forall k :: 0 < k < |s| ==> s[k] == s[1..][k - 1];
    }
  }

  lemma {:induction false} RightBlanks(s: string)
    ensures forall k :: |Subtitles.StripRight(s)| <= k < |s| ==> Subtitles.IsSpace(s[k])
  {
    hide Subtitles.IsSpace;
    if s != "" && Subtitles.IsSpace(s[|s| - 1]) {
      RightBlanks(s[..|s| - 1]);
      assert forall k :: 0 <= k < |s| - 1 ==> s[k] == s[..|s| - 1][k];
    }
  }

  /** Lines end at any break, a carriage return and line feed counting as one. */
  lemma LinesCut(a: string, b: string, c: char)
    requires Subtitles.OneLine(a) && Subtitles.IsBreak(c)
    ensures c != '\r' || b == "" || b[0] != '\n' ==> Subtitles.Lines(a + [c] + b) == [a] + Subtitles.Lines(b)
    ensures Subtitles.Lines(a + "\r\n" + b) == [a] + Subtitles.Lines(b)
    ensures a != "" ==> Subtitles.Lines(a) == [a]
    ensures Subtitles.Lines("") == []
  {
    hide Subtitles.IsBreak;
    var (rest, pair) := ([c] + b, "\r\n" + b);
    assert a + [c] + b == a + rest && a + "\r\n" + b == a + pair && a + "" == a && "" + a == a;
    Subtitles.ReadLine(a, rest, "");
    Subtitles.ReadLine(a, pair, "");
    Subtitles.ReadLine(a, "", "");
    assert rest[1..] == b && pair[2..] == b;
  }

  // --------------------------------------------------------------------- JSON

  function Hex(d: nat): char
    requires d < 16
  {
    if d < 10 then '0' + d as char else 'a' + (d - 10) as char
  }

  lemma HexSpelled(d: nat)
    requires d < 16
    ensures Codec.HexDigit(d) == Hex(d)
  {
  }

  lemma NumberedEscape(a: nat, b: nat, c: nat, d: nat)
    requires a < 16 && b < 16 && c < 16 && d < 16
    ensures Codec.Unicode(4096 * a + 256 * b + 16 * c + d) == ['\\', 'u', Hex(a), Hex(b), Hex(c), Hex(d)]
  {
    HexSpelled(a);
    HexSpelled(b);
    HexSpelled(c);
    HexSpelled(d);
    hide Codec.HexDigit, Hex;
    FourNibbles(4096 * a + 256 * b + 16 * c + d, a, b, c, d);
  }

  lemma FourNibbles(n: nat, a: nat, b: nat, c: nat, d: nat)
    requires a < 16 && b < 16 && c < 16 && d < 16 && n == 4096 * a + 256 * b + 16 * c + d
    ensures n / 4096 == a && n / 256 % 16 == b && n / 16 % 16 == c && n % 16 == d
  {
    assert n / 256 == 16 * a + b;
    assert n / 16 == 256 * a + 16 * b + c;
    LastNibble(a, b);
    LastNibble(16 * a + b, c);
    LastNibble(256 * a + 16 * b + c, d);
  }

  lemma LastNibble(high: nat, low: nat)
    requires low < 16
    ensures (16 * high + low) % 16 == low
  {
  }

  /** The escapes that have a letter, and everything printed as it is. */
  lemma LettersSpelled(c: Codec.CodePoint)
    ensures Codec.PrintChar(0x22) == ['\\', '"'] && Codec.PrintChar(0x5C) == ['\\', '\\']
    ensures Codec.PrintChar(0x08) == ['\\', 'b'] && Codec.PrintChar(0x09) == ['\\', 't'] && Codec.PrintChar(0x0A) == ['\\', 'n']
    ensures Codec.PrintChar(0x0C) == ['\\', 'f'] && Codec.PrintChar(0x0D) == ['\\', 'r']
    ensures 0x20 <= c <= 0x7E && c != 0x22 && c != 0x5C ==> Codec.PrintChar(c) == [c as char]
  {
    hide Codec.Unicode;
  }

  /** The others are numbered, as a pair beyond the first plane. */
  lemma NumbersSpelled()
    ensures Codec.PrintChar(0x01) == ['\\', 'u', '0', '0', '0', '1'] && Codec.PrintChar(0x7F) == ['\\', 'u', '0', '0', '7', 'f']
    ensures Codec.PrintChar(0x20AC) == ['\\', 'u', '2', '0', 'a', 'c']
    ensures Codec.PrintChar(0x1_F600) == ['\\', 'u', 'd', '8', '3', 'd'] + ['\\', 'u', 'd', 'e', '0', '0']
  {
    hide Codec.Unicode;
    NumberedEscape(0, 0, 0, 1);
    NumberedEscape(0, 0, 7, 15);
    NumberedEscape(2, 0, 10, 12);
    NumberedEscape(13, 8, 3, 13);
    NumberedEscape(13, 14, 0, 0);
  }

  /** An object on the wire: braces, keys in order, colons and commas without
      blanks, one line feed. */
  lemma ObjectsSpelled(n: nat)
    ensures Codec.Print(map[]) == "{}\n"
    ensures Codec.Print(map[[0x61] := Codec.Int(n)]) == "{" + "\"a\":" + Decimal(n) + "}\n"
    ensures Codec.Print(map[[0x62] := Codec.Int(n), [0x61] := Codec.Str([0x78])]) ==
      "{" + "\"a\":\"x\"" + "," + "\"b\":" + Decimal(n) + "}\n"
  {
    hide Decimal, Codec.Members, Codec.Member;
    OneMember(Codec.Int(n));
    TwoMembers(n);
    MembersSpelled(n);
  }

  lemma MembersSpelled(n: nat)
    ensures Codec.Member([0x61], Codec.Int(n)) == "\"a\":" + Decimal(n)
    ensures Codec.Member([0x62], Codec.Int(n)) == "\"b\":" + Decimal(n)
    ensures Codec.Member([0x61], Codec.Str([0x78])) == "\"a\":\"x\""
    ensures Codec.PrintInt(n) == Decimal(n) && (n > 0 ==> Codec.PrintInt(0 - n) == "-" + Decimal(n))
  {
    hide Decimal, Codec.Quote;
    OneLetter(0x61);
    OneLetter(0x62);
    OneLetter(0x78);
    assert ['"', 'a', '"'] + ":" == "\"a\":" && ['"', 'b', '"'] + ":" == "\"b\":";
    assert "\"a\":" + ['"', 'x', '"'] == "\"a\":\"x\"";
  }

  lemma OneLetter(c: Codec.CodePoint)
    requires 0x61 <= c <= 0x7A
    ensures Codec.Quote([c]) == ['"', c as char, '"']
  {
    assert [c][1..] == [];
    assert Codec.PrintChars([c]) == [c as char];
  }

  lemma OneMember(v: Codec.Scalar)
    ensures var m := map[[0x61] := v]; m != map[] && Codec.Members(m) == Codec.Member([0x61], v)
  {
    hide Codec.Member;
    var m: Codec.Object := map[[0x61] := v];
    var ks: seq<Codec.Text> := [[0x61]];
    assert [0x61] in m;
    RequestWire.MembersInOrder(m, ks);
    assert Codec.Member([0x61], v) + "" == Codec.Member([0x61], v);
  }

  lemma TwoMembers(n: nat)
    ensures var m := map[[0x62] := Codec.Int(n), [0x61] := Codec.Str([0x78])];
      m != map[] && Codec.Members(m) == Codec.Member([0x61], Codec.Str([0x78])) + ("," + Codec.Member([0x62], Codec.Int(n)))
  {
    hide Codec.Member;
    var m: Codec.Object := map[[0x62] := Codec.Int(n), [0x61] := Codec.Str([0x78])];
    var ks: seq<Codec.Text> := [[0x61], [0x62]];
    assert [0x61][0] != [0x62][0];
    assert [0x61] in m && [0x62] in m && m[[0x61]] == Codec.Str([0x78]) && m[[0x62]] == Codec.Int(n);
    assert Order.Below(Codec.PointLess, ks[0], ks[1]);
    RequestWire.MembersInOrder(m, ks);
    assert ks[1..] == [[0x62]];
    assert Codec.Member([0x62], Codec.Int(n)) + "" == Codec.Member([0x62], Codec.Int(n));
  }
}
