/** The wire codec for flat objects of strings and integers: a canonical JSON
    printer, a strict reader, and the re-encoding check that ties them together
    (RFC 8259, sections 4, 6 and 7). */
module Codec {
  import opened Names
  import opened Order

  /** A Python string: code points, lone surrogates included. */
  type CodePoint = c: int | 0 <= c <= 0x10_FFFF
  type Text = seq<CodePoint>

  datatype Scalar = Str(text: Text) | Int(value: int)

  type Object = map<Text, Scalar>

  // --------------------------------------------------------------- printing

  predicate IsHigh(c: CodePoint) { 0xD800 <= c < 0xDC00 }

  predicate IsLow(c: CodePoint) { 0xDC00 <= c < 0xE000 }

  function HexDigit(d: nat): char
    requires d < 16
  {
    "0123456789abcdef"[d]
  }

  function Hex4(n: nat): string
    requires n < 0x1_0000
  {
    [HexDigit(n / 4096), HexDigit(n / 256 % 16), HexDigit(n / 16 % 16), HexDigit(n % 16)]
  }

  function Unicode(n: nat): string
    requires n < 0x1_0000
  {
    ['\\', 'u'] + Hex4(n)
  }

  /** The short escapes: the letter after the backslash. */
  function Letter(c: CodePoint): Option<char> {
    if c == 0x22 then Some('"')
    else if c == 0x5C then Some('\\')
    else if c == 0x08 then Some('b')
    else if c == 0x0C then Some('f')
    else if c == 0x0A then Some('n')
    else if c == 0x0D then Some('r')
    else if c == 0x09 then Some('t')
    else None
  }

  function PrintChar(c: CodePoint): string {
    if Letter(c).Some? then ['\\', Letter(c).value]
    else if 0x20 <= c <= 0x7E then [c as char]
    else if c < 0x1_0000 then Unicode(c)
    else Unicode(0xD800 + (c - 0x1_0000) / 1024) + Unicode(0xDC00 + (c - 0x1_0000) % 1024)
  }

  function PrintChars(t: Text): string {
    if t == [] then "" else PrintChar(t[0]) + PrintChars(t[1..])
  }

  function Quote(t: Text): string { "\"" + PrintChars(t) + "\"" }

  function PrintInt(n: int): string {
    if n < 0 then "-" + Decimal(-n) else Decimal(n)
  }

  function PrintValue(v: Scalar): string {
    match v
    case Str(t) => Quote(t)
    case Int(n) => PrintInt(n)
  }

  function Member(k: Text, v: Scalar): string { Quote(k) + ":" + PrintValue(v) }

  predicate PointLess(a: CodePoint, b: CodePoint) { a < b }

  lemma PointsAreOrdered()
    ensures StrictTotal(PointLess)
  {
  }

  /** The members in the order of their keys, with commas between. */
  ghost function Members(m: Object): string
    requires m != map[]
    decreases |m|
  {
    PointsAreOrdered();
    var k := Least(PointLess, m.Keys);
    Member(k, m[k]) + (if m - {k} == map[] then "" else "," + Members(m - {k}))
  }

  ghost function Print(m: Object): string {
    "{" + (if m == map[] then "" else Members(m)) + "}" + "\n"
  }

  // ---------------------------------------------------------------- reading

  function HexValue(c: char): (r: Option<nat>)
    ensures r.Some? ==> r.value < 16
  {
    if '0' <= c <= '9' then Some((c - '0') as nat)
    else if 'a' <= c <= 'f' then Some((c - 'a') as nat + 10)
    else if 'A' <= c <= 'F' then Some((c - 'A') as nat + 10)
    else None
  }

  function ReadHex4(s: string): (r: Option<nat>)
    ensures r.Some? ==> |s| >= 4 && r.value < 0x1_0000
  {
    if |s| < 4 || HexValue(s[0]).None? || HexValue(s[1]).None? || HexValue(s[2]).None? || HexValue(s[3]).None? then None
    else Some(HexValue(s[0]).value * 4096 + HexValue(s[1]).value * 256 + HexValue(s[2]).value * 16 + HexValue(s[3]).value)
  }

  /** Four hexadecimal digits behind `\u`. */
  function ReadUnicode(s: string): (r: Option<nat>)
    ensures r.Some? ==> |s| >= 6 && r.value < 0x1_0000
  {
    if |s| >= 2 && s[0] == '\\' && s[1] == 'u' then ReadHex4(s[2..]) else None
  }

  function ReadLetter(c: char): Option<CodePoint> {
    match c
    case '"' => Some(0x22)
    case '\\' => Some(0x5C)
    case '/' => Some(0x2F)
    case 'b' => Some(0x08)
    case 'f' => Some(0x0C)
    case 'n' => Some(0x0A)
    case 'r' => Some(0x0D)
    case 't' => Some(0x09)
    case _ => None
  }

  function Join(high: nat, low: nat): CodePoint
    requires 0xD800 <= high < 0xDC00 && 0xDC00 <= low < 0xE000
  {
    0x1_0000 + (high - 0xD800) * 1024 + (low - 0xDC00)
  }

  /** One character inside a string.  A high surrogate escape takes a low one
      that follows it along; a high one alone stands for itself. */
  function ReadChar(s: string): (r: Option<(CodePoint, string)>)
    requires s != ""
    ensures r.Some? ==> |r.value.1| < |s|
  {
    if s[0] as int < 0x20 then None
    else if s[0] != '\\' then Some((s[0] as int, s[1..]))
    else if |s| < 2 then None
    else if s[1] != 'u' then
      var letter := ReadLetter(s[1]);
      if letter.None? then None else Some((letter.value, s[2..]))
    else
      var unit := ReadUnicode(s);
      if unit.None? then None
      else if IsHigh(unit.value) && |s| >= 8 && s[6] == '\\' && s[7] == 'u' then
        var next := ReadUnicode(s[6..]);
        if next.None? then None
        else if IsLow(next.value) then Some((Join(unit.value, next.value), s[12..]))
        else Some((unit.value, s[6..]))
      else Some((unit.value, s[6..]))
  }

  /** The rest of a string behind its opening quote. */
  function ReadChars(s: string): (r: Option<(Text, string)>)
    ensures r.Some? ==> |r.value.1| < |s|
    decreases |s|
  {
    if s == "" then None
    else if s[0] == '"' then Some(([], s[1..]))
    else
      var c := ReadChar(s);
      if c.None? then None else
      var rest := ReadChars(c.value.1);
      if rest.None? then None else Some(([c.value.0] + rest.value.0, rest.value.1))
  }

  predicate IsSpace(c: char) { c == ' ' || c == '\t' || c == '\n' || c == '\r' }

  function SkipSpace(s: string): (r: string)
    ensures |r| <= |s|
  {
    if s != "" && IsSpace(s[0]) then SkipSpace(s[1..]) else s
  }

  function DigitRun(s: string): (n: nat)
    ensures n <= |s| && AllDigits(s[..n])
    ensures n < |s| ==> !IsDigit(s[n])
  {
    if s == "" || !IsDigit(s[0]) then 0 else
    var n := DigitRun(s[1..]) + 1;
    assert s[..n] == [s[0]] + s[1..][..n - 1];
    n
  }

  /** A zero, or a run of digits that does not begin with one. */
  function ReadNat(s: string): (r: Option<(nat, string)>)
    ensures r.Some? ==> |r.value.1| < |s|
  {
    var n := DigitRun(s);
    if n == 0 then None
    else if s[0] == '0' then Some((0, s[1..]))
    else Some((Value(s[..n]), s[n..]))
  }

  function ReadValue(s: string): (r: Option<(Scalar, string)>)
    ensures r.Some? ==> |r.value.1| < |s|
  {
    if s == "" then None
    else if s[0] == '"' then
      var t := ReadChars(s[1..]);
      if t.None? then None else Some((Str(t.value.0), t.value.1))
    else if s[0] == '-' then
      var n := ReadNat(s[1..]);
      if n.None? then None else Some((Int(0 - n.value.0), n.value.1))
    else
      var n := ReadNat(s);
      if n.None? then None else Some((Int(n.value.0), n.value.1))
  }

  /** One member, from the opening quote of its key to the end of its value. */
  function ReadMember(s: string): (r: Option<((Text, Scalar), string)>)
    ensures r.Some? ==> |r.value.1| < |s|
  {
    if s == "" || s[0] != '"' then None else
    var key := ReadChars(s[1..]);
    if key.None? then None else
    var colon := SkipSpace(key.value.1);
    if colon == "" || colon[0] != ':' then None else
    var value := ReadValue(SkipSpace(colon[1..]));
    if value.None? then None else Some(((key.value.0, value.value.0), value.value.1))
  }

  /** The members of an object, up to its closing brace, in the order read. */
  function ReadMembers(s: string): (r: Option<(seq<(Text, Scalar)>, string)>)
    decreases |s|
  {
    var first := ReadMember(s);
    if first.None? then None else
    var more := SkipSpace(first.value.1);
    if more == "" then None
    else if more[0] == '}' then Some(([first.value.0], more[1..]))
    else if more[0] == ',' then
      var rest := ReadMembers(SkipSpace(more[1..]));
      if rest.None? then None else Some(([first.value.0] + rest.value.0, rest.value.1))
    else None
  }

  function ReadObject(s: string): Option<seq<(Text, Scalar)>> {
    var open := SkipSpace(s);
    if open == "" || open[0] != '{' then None else
    var body := SkipSpace(open[1..]);
    if body != "" && body[0] == '}' then
      if SkipSpace(body[1..]) == "" then Some([]) else None
    else
      var members := ReadMembers(body);
      if members.None? || SkipSpace(members.value.1) != "" then None else Some(members.value.0)
  }

  predicate DistinctKeys(pairs: seq<(Text, Scalar)>) {
    forall i, j :: 0 <= i < j < |pairs| ==> pairs[i].0 != pairs[j].0
  }

  function ToMap(pairs: seq<(Text, Scalar)>): Object {
    if pairs == [] then map[] else ToMap(pairs[..|pairs| - 1])[pairs[|pairs| - 1].0 := pairs[|pairs| - 1].1]
  }

  function Pairs(pairs: seq<(Text, Scalar)>): Option<Object> {
    if DistinctKeys(pairs) then Some(ToMap(pairs)) else None
  }

  lemma {:induction false} KeysOfToMap(pairs: seq<(Text, Scalar)>, k: Text)
    ensures k in ToMap(pairs) <==> exists i :: 0 <= i < |pairs| && pairs[i].0 == k
  {
    if pairs != [] {
      var front := pairs[..|pairs| - 1];
      KeysOfToMap(front, k);
      if k in ToMap(front) {
        var i :| 0 <= i < |front| && front[i].0 == k;
        assert pairs[i].0 == k;
      }
    }
  }

  /** The hook that builds the dictionary and refuses a repeated key. */
  method CollectPairs(pairs: seq<(Text, Scalar)>) returns (r: Option<Object>)
    ensures r == Pairs(pairs)
  {
    var result: Object := map[];
    for i := 0 to |pairs|
      invariant result == ToMap(pairs[..i]) && DistinctKeys(pairs[..i])
    {
      KeysOfToMap(pairs[..i], pairs[i].0);
      assert pairs[..i + 1][..i] == pairs[..i];
      if pairs[i].0 in result {
        var j :| 0 <= j < |pairs[..i]| && pairs[..i][j].0 == pairs[i].0;
        assert pairs[j].0 == pairs[i].0;
        return None;
      }
      forall j | 0 <= j < i
        ensures pairs[j].0 != pairs[i].0
      {
        assert pairs[..i][j].0 == pairs[j].0;
      }
      result := result[pairs[i].0 := pairs[i].1];
    }
    assert pairs[..|pairs|] == pairs;
    return Some(result);
  }

  /** What the wire reader accepts: the one spelling the printer would choose. */
  ghost function Decode(raw: string, maximum: nat): Option<Object> {
    if raw == "" || |raw| > maximum || raw[|raw| - 1] != '\n' then None else
    var pairs := ReadObject(raw);
    if pairs.None? then None else
    var value := Pairs(pairs.value);
    if value.None? || Print(value.value) != raw then None else value
  }
}
