/** The reader and the printer are inverse to each other, exactly on the texts
    a string can be spelled by. */
module CodecLaws {
  import opened Names
  import opened Order
  import opened Codec

  /** No high surrogate directly before a low one: the two escapes would be
      read as one character. */
  predicate Plain(t: Text) {
    forall i :: 0 <= i < |t| - 1 ==> !(IsHigh(t[i]) && IsLow(t[i + 1]))
  }

  predicate PlainScalar(v: Scalar) { v.Str? ==> Plain(v.text) }

  predicate PlainObject(m: Object) {
    forall k :: k in m ==> Plain(k) && PlainScalar(m[k])
  }

  // ------------------------------------------------------- characters, read back

  lemma DigitReads(d: nat)
    requires d < 16
    ensures HexValue(HexDigit(d)) == Some(d)
  {
  }

  lemma HexSum(n: nat)
    requires n < 0x1_0000
    ensures n / 4096 * 4096 + n / 256 % 16 * 256 + n / 16 % 16 * 16 + n % 16 == n
  {
    assert n / 16 / 16 == n / 256 && n / 256 / 16 == n / 4096;
  }

  lemma HexReads(n: nat, rest: string)
    requires n < 0x1_0000
    ensures ReadUnicode(Unicode(n) + rest) == Some(n)
  {
    hide HexDigit, HexValue;
    var s := Unicode(n) + rest;
    DigitReads(n / 4096);
    DigitReads(n / 256 % 16);
    DigitReads(n / 16 % 16);
    DigitReads(n % 16);
    assert s[2..] == Hex4(n) + rest;
    HexSum(n);
  }

  /** What may follow a lone high surrogate: anything but a low one. */
  predicate NoLowAhead(s: string) {
    |s| >= 2 && s[0] == '\\' && s[1] == 'u' ==> ReadUnicode(s).Some? && !IsLow(ReadUnicode(s).value)
  }

  lemma PrintedIsNoLow(t: Text, rest: string)
    requires t == [] || !IsLow(t[0])
    ensures NoLowAhead(PrintChars(t) + "\"" + rest)
  {
    if t != [] {
      var c, more := t[0], PrintChars(t[1..]) + "\"" + rest;
      assert PrintChars(t) + "\"" + rest == PrintChar(c) + more;
      PrintedCharIsNoLow(c, more);
    }
  }

  lemma PrintedCharIsNoLow(c: CodePoint, more: string)
    requires !IsLow(c)
    ensures NoLowAhead(PrintChar(c) + more)
  {
    if Letter(c).None? && !(0x20 <= c <= 0x7E) {
      if c < 0x1_0000 {
        HexReads(c, more);
      } else {
        var high, low := 0xD800 + (c - 0x1_0000) / 1024, 0xDC00 + (c - 0x1_0000) % 1024;
        assert PrintChar(c) + more == Unicode(high) + (Unicode(low) + more);
        HexReads(high, Unicode(low) + more);
      }
    }
  }

  lemma ReadPrintedChar(c: CodePoint, more: string)
    requires IsHigh(c) ==> NoLowAhead(more)
    ensures (PrintChar(c) + more)[0] != '"'
    ensures ReadChar(PrintChar(c) + more) == Some((c, more))
  {
    var s := PrintChar(c) + more;
    if Letter(c).Some? {
      assert s[2..] == more;
    } else if 0x20 <= c <= 0x7E {
      assert s[1..] == more;
    } else if c < 0x1_0000 {
      HexReads(c, more);
      assert s[6..] == more;
    } else {
      ReadPrintedPair(c, more);
    }
  }

  lemma ReadPrintedPair(c: CodePoint, more: string)
    requires c >= 0x1_0000
    ensures ReadChar(PrintChar(c) + more) == Some((c, more))
  {
    var high, low := 0xD800 + (c - 0x1_0000) / 1024, 0xDC00 + (c - 0x1_0000) % 1024;
    assert PrintChar(c) + more == Unicode(high) + (Unicode(low) + more);
    ReadPair(high, low, more);
    assert Join(high, low) == c;
  }

  lemma ReadPair(high: nat, low: nat, more: string)
    requires 0xD800 <= high < 0xDC00 && 0xDC00 <= low < 0xE000
    ensures ReadChar(Unicode(high) + (Unicode(low) + more)) == Some((Join(high, low), more))
  {
    hide Hex4, ReadHex4;
    var s := Unicode(high) + (Unicode(low) + more);
    HexReads(high, Unicode(low) + more);
    HexReads(low, more);
    UnicodeLength(high);
    UnicodeLength(low);
    assert s[6..] == Unicode(low) + more;
    assert s[12..] == more;
  }

  lemma UnicodeLength(n: nat)
    requires n < 0x1_0000
    ensures |Unicode(n)| == 6 && Unicode(n)[0] == '\\' && Unicode(n)[1] == 'u'
  {
  }

  /** A string without an adjacent pair is read back from its own spelling. */
  lemma {:induction false} ReadPrintedChars(t: Text, rest: string)
    requires Plain(t)
    ensures ReadChars(PrintChars(t) + "\"" + rest) == Some((t, rest))
  {
    var s := PrintChars(t) + "\"" + rest;
    if t == [] {
      assert s[1..] == rest;
    } else {
      var more := PrintChars(t[1..]) + "\"" + rest;
      assert s == PrintChar(t[0]) + more;
      PlainTail(t);
      if IsHigh(t[0]) { PrintedIsNoLow(t[1..], rest); }
      ReadPrintedChar(t[0], more);
      ReadPrintedChars(t[1..], rest);
      assert t == [t[0]] + t[1..];
    }
  }

  lemma PlainTail(t: Text)
    requires t != [] && Plain(t)
    ensures Plain(t[1..])
    ensures IsHigh(t[0]) && |t| > 1 ==> !IsLow(t[1..][0])
  {
    forall i | 0 <= i < |t[1..]| - 1
      ensures !(IsHigh(t[1..][i]) && IsLow(t[1..][i + 1]))
    {
      var j := i + 1;
      assert !(IsHigh(t[j]) && IsLow(t[j + 1]));
    }
  }

  // ----------------------------------------------------------- nothing else

  /** After a high surrogate read on its own, no low one is read. */
  lemma HighStaysAlone(s: string)
    requires s != "" && ReadChar(s).Some? && IsHigh(ReadChar(s).value.0)
    ensures var r := ReadChar(s).value.1;
      r != "" && ReadChar(r).Some? ==> !IsLow(ReadChar(r).value.0)
  {
  }

  lemma {:induction false} ReadIsPlain(s: string)
    requires ReadChars(s).Some?
    ensures Plain(ReadChars(s).value.0)
    decreases |s|
  {
    if s[0] != '"' {
      var c := ReadChar(s).value;
      var t := ReadChars(c.1).value.0;
      ReadIsPlain(c.1);
      if IsHigh(c.0) { HighStaysAlone(s); }
      if t != [] { assert t[0] == ReadChar(c.1).value.0; }
      PlainCons(c.0, t);
    }
  }

  lemma PlainCons(c: CodePoint, t: Text)
    requires Plain(t) && (t != [] && IsHigh(c) ==> !IsLow(t[0]))
    ensures Plain([c] + t)
  {
    var u := [c] + t;
    assert forall i :: 0 < i < |u| ==> u[i] == t[i - 1];
  }

  predicate PlainPairs(pairs: seq<(Text, Scalar)>) {
    forall i :: 0 <= i < |pairs| ==> Plain(pairs[i].0) && PlainScalar(pairs[i].1)
  }

  lemma MemberIsPlain(s: string)
    requires ReadMember(s).Some?
    ensures Plain(ReadMember(s).value.0.0) && PlainScalar(ReadMember(s).value.0.1)
  {
    hide ReadChars, SkipSpace, ReadNat, Plain;
    ReadIsPlain(s[1..]);
    var v := SkipSpace(SkipSpace(ReadChars(s[1..]).value.1)[1..]);
    if v[0] == '"' { ReadIsPlain(v[1..]); }
  }

  lemma {:induction false} MembersArePlain(s: string)
    requires ReadMembers(s).Some?
    ensures PlainPairs(ReadMembers(s).value.0)
    decreases |s|
  {
    hide ReadMember, SkipSpace, Plain;
    MemberIsPlain(s);
    var more := SkipSpace(ReadMember(s).value.1);
    if more[0] == ',' { MembersArePlain(SkipSpace(more[1..])); }
  }

  lemma ObjectIsPlain(s: string)
    requires ReadObject(s).Some?
    ensures PlainPairs(ReadObject(s).value)
  {
    hide ReadMembers, SkipSpace, Plain;
    var body := SkipSpace(SkipSpace(s)[1..]);
    if ReadMembers(body).Some? { MembersArePlain(body); }
  }

  lemma {:induction false} ToMapIsPlain(pairs: seq<(Text, Scalar)>)
    requires PlainPairs(pairs)
    ensures PlainObject(ToMap(pairs))
  {
    hide Plain;
    if pairs != [] { ToMapIsPlain(pairs[..|pairs| - 1]); }
  }

  // ---------------------------------------------------------------- integers

  lemma {:induction false} DecimalLead(n: nat)
    ensures |Decimal(n)| > 0 && IsDigit(Decimal(n)[0]) && (Decimal(n)[0] == '0' <==> n == 0)
  {
    if n >= 10 { DecimalLead(n / 10); }
  }

  predicate NoDigitAhead(s: string) { s == "" || !IsDigit(s[0]) }

  lemma {:induction false} RunOfDigits(d: string, rest: string)
    requires AllDigits(d) && NoDigitAhead(rest)
    ensures DigitRun(d + rest) == |d|
  {
    if d == "" {
      assert d + rest == rest;
    } else {
      assert (d + rest)[1..] == d[1..] + rest;
      RunOfDigits(d[1..], rest);
    }
  }

  lemma ReadPrintedNat(n: nat, rest: string)
    requires NoDigitAhead(rest)
    ensures ReadNat(Decimal(n) + rest) == Some((n, rest))
  {
    var d := Decimal(n);
    ValueDecimal(n);
    DecimalLead(n);
    RunOfDigits(d, rest);
    assert (d + rest)[..|d|] == d && (d + rest)[|d|..] == rest;
    if n == 0 { assert d == "0"; }
  }

  lemma ReadPrintedInt(n: int, rest: string)
    requires NoDigitAhead(rest)
    ensures ReadValue(PrintInt(n) + rest) == Some((Int(n), rest))
  {
    hide ReadNat, Decimal, ReadChars;
    if n < 0 {
      assert (PrintInt(n) + rest)[1..] == Decimal(-n) + rest;
      ReadPrintedNat(-n, rest);
    } else {
      DecimalLead(n);
      ReadPrintedNat(n, rest);
    }
  }

  // ----------------------------------------------------------------- members

  lemma ReadQuoted(t: Text, rest: string)
    requires Plain(t)
    ensures var s := Quote(t) + rest; s != "" && s[0] == '"' && ReadChars(s[1..]) == Some((t, rest))
  {
    var s := Quote(t) + rest;
    assert s[1..] == PrintChars(t) + "\"" + rest;
    ReadPrintedChars(t, rest);
  }

  lemma ReadPrintedValue(v: Scalar, rest: string)
    requires PlainScalar(v) && NoDigitAhead(rest)
    ensures PrintValue(v) != "" && !IsSpace(PrintValue(v)[0])
    ensures ReadValue(PrintValue(v) + rest) == Some((v, rest))
  {
    match v
    case Str(t) => ReadQuoted(t, rest);
    case Int(n) =>
      if n >= 0 { DecimalLead(n); }
      ReadPrintedInt(n, rest);
  }

  lemma NoSpaceToSkip(s: string)
    requires s == "" || !IsSpace(s[0])
    ensures SkipSpace(s) == s
  {
  }

  lemma ReadPrintedMember(k: Text, v: Scalar, rest: string)
    requires Plain(k) && PlainScalar(v) && NoDigitAhead(rest)
    ensures ReadMember(Member(k, v) + rest) == Some(((k, v), rest))
    ensures Member(k, v) != "" && Member(k, v)[0] == '"'
  {
    hide ReadChars, ReadValue, SkipSpace, Quote, PrintValue, Plain;
    var value := PrintValue(v) + rest;
    assert Member(k, v) + rest == Quote(k) + (":" + value);
    assert Member(k, v) == Quote(k) + (":" + PrintValue(v));
    ReadQuoted(k, ":" + value);
    ReadQuoted(k, ":" + PrintValue(v));
    ReadPrintedValue(v, rest);
    NoSpaceToSkip(":" + value);
    assert (":" + value)[1..] == value;
    NoSpaceToSkip(value);
  }

  /** The members in printing order. */
  ghost function Ordered(m: Object): seq<(Text, Scalar)>
    decreases |m|
  {
    if m == map[] then [] else
    PointsAreOrdered();
    var k := Least(PointLess, m.Keys);
    [(k, m[k])] + Ordered(m - {k})
  }

  lemma {:induction false} ReadPrintedMembers(m: Object, rest: string)
    requires m != map[] && PlainObject(m)
    ensures ReadMembers(Members(m) + "}" + rest) == Some((Ordered(m), rest))
    ensures Members(m) != "" && Members(m)[0] == '"'
    decreases |m|
  {
    hide ReadMember, Member, SkipSpace, Plain, PlainScalar;
    PointsAreOrdered();
    var k := Least(PointLess, m.Keys);
    var others := m - {k};
    if others == map[] {
      var tail := "}" + rest;
      assert Members(m) + "}" + rest == Member(k, m[k]) + tail;
      ReadPrintedMember(k, m[k], tail);
      NoSpaceToSkip(tail);
      assert tail[1..] == rest;
      assert Ordered(m) == [(k, m[k])];
    } else {
      var following := Members(others) + "}" + rest;
      var tail := "," + following;
      assert Members(m) + "}" + rest == Member(k, m[k]) + tail;
      ReadPrintedMember(k, m[k], tail);
      NoSpaceToSkip(tail);
      assert tail[1..] == following;
      ReadPrintedMembers(others, rest);
      assert following[0] == '"';
      NoSpaceToSkip(following);
    }
  }

  lemma ReadPrintedObject(m: Object)
    requires PlainObject(m)
    ensures ReadObject(Print(m)) == Some(Ordered(m))
  {
    hide ReadMembers, Members, Plain, PlainObject, SkipSpace, Ordered;
    var raw := Print(m);
    NoSpaceToSkip(raw);
    LineEndIsSpace();
    if m == map[] {
      assert raw[1..] == "}\n" && "}\n"[1..] == "\n";
      NoSpaceToSkip("}\n");
      OrderedEmpty();
    } else {
      var body := Members(m) + "}" + "\n";
      assert raw[1..] == body;
      ReadPrintedMembers(m, "\n");
      assert body[0] == Members(m)[0];
      NoSpaceToSkip(body);
    }
  }

  lemma LineEndIsSpace()
    ensures SkipSpace("\n") == ""
  {
    assert "\n"[1..] == "";
    assert SkipSpace("") == "";
  }

  lemma OrderedEmpty()
    ensures Ordered(map[]) == []
  {
  }

  // --------------------------------------------------- the dictionary rebuilt

  /** `pairs` lists the members of `m`, each once. */
  ghost predicate Lists(pairs: seq<(Text, Scalar)>, m: Object) {
    && (forall i :: 0 <= i < |pairs| ==> pairs[i].0 in m && m[pairs[i].0] == pairs[i].1)
    && (forall k :: k in m ==> exists i :: 0 <= i < |pairs| && pairs[i].0 == k)
    && DistinctKeys(pairs)
  }

  lemma ListsCons(m: Object, k: Text, rest: seq<(Text, Scalar)>)
    requires k in m && Lists(rest, m - {k})
    ensures Lists([(k, m[k])] + rest, m)
  {
    var pairs := [(k, m[k])] + rest;
    assert pairs[0].0 == k;
    forall j | j in m && j != k
      ensures exists i :: 0 <= i < |pairs| && pairs[i].0 == j
    {
      assert j in m - {k};
      var i :| 0 <= i < |rest| && rest[i].0 == j;
      assert pairs[i + 1].0 == j;
    }
  }

  lemma {:induction false} OrderedHolds(m: Object)
    ensures Lists(Ordered(m), m)
    decreases |m|
  {
    if m != map[] {
      PointsAreOrdered();
      var k := Least(PointLess, m.Keys);
      OrderedHolds(m - {k});
      ListsCons(m, k, Ordered(m - {k}));
    }
  }

  lemma {:induction false} ToMapLooksUp(pairs: seq<(Text, Scalar)>, i: nat)
    requires DistinctKeys(pairs) && i < |pairs|
    ensures pairs[i].0 in ToMap(pairs) && ToMap(pairs)[pairs[i].0] == pairs[i].1
  {
    if i < |pairs| - 1 { ToMapLooksUp(pairs[..|pairs| - 1], i); }
  }

  lemma OrderedRebuilds(m: Object)
    ensures Pairs(Ordered(m)) == Some(m)
  {
    hide Ordered, ToMap;
    var pairs := Ordered(m);
    OrderedHolds(m);
    forall k { KeysOfToMap(pairs, k); }
    forall i: nat | i < |pairs| { ToMapLooksUp(pairs, i); }
    assert ToMap(pairs) == m by {
      assert ToMap(pairs).Keys == m.Keys;
    }
  }

  // ---------------------------------------------------------------- theorems

  /** The reader accepts, for each object, exactly its own canonical print, and
      accepts that exactly when it fits and no string hides a surrogate pair.
      So accepted texts and such objects are in bijection. */
  lemma DecodeExactly(raw: string, maximum: nat, m: Object)
    ensures Decode(raw, maximum) == Some(m) <==> raw == Print(m) && PlainObject(m) && |raw| <= maximum
  {
    hide ReadObject, Pairs, PlainObject;
    if Decode(raw, maximum) == Some(m) { DecodedIsPlain(raw); }
    if PlainObject(m) {
      ReadPrintedObject(m);
      OrderedRebuilds(m);
    }
  }

  lemma DecodedIsPlain(raw: string)
    requires ReadObject(raw).Some? && Pairs(ReadObject(raw).value).Some?
    ensures PlainObject(Pairs(ReadObject(raw).value).value)
  {
    hide ReadObject, Plain;
    ObjectIsPlain(raw);
    ToMapIsPlain(ReadObject(raw).value);
  }

  /** Printing is injective on such objects, whatever the cap. */
  lemma PrintInjective(m: Object, m': Object)
    requires PlainObject(m) && PlainObject(m') && Print(m) == Print(m')
    ensures m == m'
  {
    hide Print, PlainObject, Decode;
    DecodeExactly(Print(m), |Print(m)|, m);
    DecodeExactly(Print(m), |Print(m)|, m');
  }

  /** Printing then reading gives the object back exactly under that
      condition; otherwise the reader refuses or returns a different object. */
  lemma RoundTripExactly(m: Object, maximum: nat)
    ensures Decode(Print(m), maximum) == Some(m) <==> PlainObject(m) && |Print(m)| <= maximum
  {
    hide Print, PlainObject, Decode;
    DecodeExactly(Print(m), maximum, m);
  }

  /** One that fails: the two halves of an emoji, kept apart in the string. */
  lemma SplitEmojiIsLost(maximum: nat)
    ensures var m: Object := map[[0x61] := Str([0xD83D, 0xDE00])]; Decode(Print(m), maximum) != Some(m)
  {
    var m: Object := map[[0x61] := Str([0xD83D, 0xDE00])];
    RoundTripExactly(m, maximum);
    hide Decode, Print;
    assert [0x61] in m && IsHigh(m[[0x61]].text[0]) && IsLow(m[[0x61]].text[1]);
    assert !Plain(m[[0x61]].text);
  }

  // ------------------------------------------------------------ what is printed

  /** Printable ASCII. */
  predicate Printable(s: string) { forall i :: 0 <= i < |s| ==> ' ' <= s[i] <= '~' }

  lemma UnicodeIsPrintable(n: nat)
    requires n < 0x1_0000
    ensures Printable(Unicode(n))
  {
    forall d: nat | d < 16 ensures ' ' <= HexDigit(d) <= '~' {}
    hide HexDigit;
  }

  lemma PrintableJoin(a: string, b: string)
    requires Printable(a) && Printable(b)
    ensures Printable(a + b)
  {
  }

  lemma LetterIsPrintable(c: CodePoint)
    requires Letter(c).Some?
    ensures ' ' <= Letter(c).value <= '~'
  {
  }

  lemma PrintCharIsPrintable(c: CodePoint)
    ensures Printable(PrintChar(c))
  {
    hide Unicode, Letter;
    if Letter(c).Some? {
      LetterIsPrintable(c);
    } else if !(0x20 <= c <= 0x7E) {
      if c < 0x1_0000 {
        UnicodeIsPrintable(c);
      } else {
        var high, low := 0xD800 + (c - 0x1_0000) / 1024, 0xDC00 + (c - 0x1_0000) % 1024;
        UnicodeIsPrintable(high);
        UnicodeIsPrintable(low);
        PrintableJoin(Unicode(high), Unicode(low));
      }
    }
  }

  lemma {:induction false} PrintCharsArePrintable(t: Text)
    ensures Printable(PrintChars(t))
  {
    if t != [] {
      PrintCharIsPrintable(t[0]);
      PrintCharsArePrintable(t[1..]);
    }
  }

  lemma DecimalIsPrintable(n: nat)
    ensures Printable(Decimal(n))
  {
    ValueDecimal(n);
  }

  lemma QuoteIsPrintable(t: Text)
    ensures Printable(Quote(t))
  {
    PrintCharsArePrintable(t);
    hide PrintChars;
  }

  lemma ValueIsPrintable(v: Scalar)
    ensures Printable(PrintValue(v))
  {
    hide Quote, Decimal;
    match v
    case Str(t) => QuoteIsPrintable(t);
    case Int(n) => DecimalIsPrintable(if n < 0 then -n else n);
  }

  lemma MemberIsPrintable(k: Text, v: Scalar)
    ensures Printable(Member(k, v))
  {
    hide Quote, PrintValue;
    QuoteIsPrintable(k);
    ValueIsPrintable(v);
  }

  lemma {:induction false} MembersArePrintable(m: Object)
    requires m != map[]
    ensures Printable(Members(m))
    decreases |m|
  {
    hide Member;
    PointsAreOrdered();
    var k := Least(PointLess, m.Keys);
    MemberIsPrintable(k, m[k]);
    if m - {k} != map[] { MembersArePrintable(m - {k}); }
  }

  /** Whatever the strings hold, a print is one line of printable ASCII. */
  lemma PrintIsOneAsciiLine(m: Object)
    ensures Print(m) != "" && Print(m)[|Print(m)| - 1] == '\n' && Printable(Print(m)[..|Print(m)| - 1])
  {
    if m != map[] { MembersArePrintable(m); }
    var body := "{" + (if m == map[] then "" else Members(m)) + "}";
    assert Print(m) == body + "\n" && Print(m)[..|Print(m)| - 1] == body;
    hide Members;
  }

  /** The members stand in the order of their keys. */
  lemma {:induction false} MembersAreSorted(m: Object)
    ensures forall i, j :: 0 <= i < j < |Ordered(m)| ==> Below(PointLess, Ordered(m)[i].0, Ordered(m)[j].0)
    decreases |m|
  {
    if m != map[] {
      PointsAreOrdered();
      var k := Least(PointLess, m.Keys);
      var rest := Ordered(m - {k});
      MembersAreSorted(m - {k});
      OrderedHolds(m - {k});
      forall j | 0 <= j < |rest| ensures Below(PointLess, k, rest[j].0) {
        assert rest[j].0 in m - {k};
      }
    }
  }

  /** So the printed keys are read back in strictly increasing order. */
  lemma PrintedKeysAreSorted(m: Object)
    requires PlainObject(m)
    ensures ReadObject(Print(m)).Some?
    ensures var pairs := ReadObject(Print(m)).value;
      forall i, j :: 0 <= i < j < |pairs| ==> Below(PointLess, pairs[i].0, pairs[j].0)
  {
    hide ReadObject, Print, Ordered, PlainObject, Below;
    ReadPrintedObject(m);
    MembersAreSorted(m);
  }
}
