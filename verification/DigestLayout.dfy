/** The bytes a set digest is taken of, field by field. */
module DigestLayout {
  import opened RunState
  import opened Files
  import opened Order
  import opened Digest

  // --------------------------------------------------------------- literals

  /** Four bytes, the most significant first, and the same with eight. */
  lemma LengthsInBytes()
    ensures BigEndian(0x0102_0304, 4) == [1, 2, 3, 4]
    ensures BigEndian(0x01_0203, 8) == [0, 0, 0, 0, 0, 1, 2, 3]
    ensures forall a, b, c, d :: Number([a, b, c, d]) == a * 0x100_0000 + b * 0x1_0000 + c * 0x100 + d
  {
    hide BigEndian, Number;
    FourBytes(0x0102_0304);
    EightBytes(0x01_0203);
    forall a, b, c, d
      ensures Number([a, b, c, d]) == a * 0x100_0000 + b * 0x1_0000 + c * 0x100 + d
    {
      NumberOfFour(a, b, c, d);
    }
  }

  lemma NumberOfFour(a: int, b: int, c: int, d: int)
    ensures Number([a, b, c, d]) == a * 0x100_0000 + b * 0x1_0000 + c * 0x100 + d
  {
    assert [a][..0] == [] && [a, b][..1] == [a] && [a, b, c][..2] == [a, b] && [a, b, c, d][..3] == [a, b, c];
    assert Number([]) == 0;
    assert Number([a]) == a;
    assert Number([a, b]) == a * 256 + b;
    assert Number([a, b, c]) == (a * 256 + b) * 256 + c;
    assert Number([a, b, c, d]) == Number([a, b, c]) * 256 + d;
  }

  lemma FourBytes(n: nat)
    ensures BigEndian(n, 4) == [n / 256 / 256 / 256 % 256, n / 256 / 256 % 256, n / 256 % 256, n % 256]
  {
    var (a, b, c) := (n / 256, n / 256 / 256, n / 256 / 256 / 256);
    assert BigEndian(c / 256, 0) == [];
    assert BigEndian(c, 1) == [c % 256];
    assert BigEndian(b, 2) == [c % 256, b % 256];
    assert BigEndian(a, 3) == [c % 256, b % 256, a % 256];
  }

  lemma EightBytes(n: nat)
    requires n < 0x100_0000
    ensures BigEndian(n, 8) == [0, 0, 0, 0, 0, n / 256 / 256 % 256, n / 256 % 256, n % 256]
  {
    var (a, b, c) := (n / 256, n / 256 / 256, n / 256 / 256 / 256);
    assert c == 0;
    FourBytes(0);
    assert BigEndian(0, 5) == [0, 0, 0, 0, 0];
    assert BigEndian(b, 6) == BigEndian(0, 5) + [b % 256];
    assert BigEndian(a, 7) == BigEndian(b, 6) + [a % 256];
  }

  /** The encoding at both ends of every width. */
  lemma EncodedLiterals()
    ensures Encode("a") == [97] && Encode("\U{7F}") == [0x7F]
    ensures Encode("\U{80}") == [0xC2, 0x80] && Encode("\U{7FF}") == [0xDF, 0xBF]
    ensures Encode("\U{800}") == [0xE0, 0xA0, 0x80] && Encode("\U{FFFF}") == [0xEF, 0xBF, 0xBF]
    ensures Encode("\U{10000}") == [0xF0, 0x90, 0x80, 0x80] && Encode("\U{10FFFF}") == [0xF4, 0x8F, 0xBF, 0xBF]
  {
    forall c: char { OneChar(c); }
  }

  lemma OneChar(c: char)
    ensures Encode([c]) == EncodeChar(c)
  {
    assert [c][1..] == "";
  }

  // ----------------------------------------------------------------- layout

  lemma CutFour(a: Bytes, b: Bytes, c: Bytes, d: Bytes, e: Bytes)
    ensures var s := a + b + c + d + e;
      && s[..|a|] == a && s[|a|..|a| + |b|] == b && s[|a| + |b|..|a| + |b| + |c|] == c
      && s[|a| + |b| + |c|..|a| + |b| + |c| + |d|] == d && s[|a| + |b| + |c| + |d|..] == e
  {
  }

  lemma {:induction false} BytesInRange(n: nat, width: nat)
    ensures forall b :: b in BigEndian(n, width) ==> 0 <= b < 256
  {
    if width > 0 { BytesInRange(n / 256, width - 1); }
  }

  /** What is hashed for a set of files with least name `n`: four bytes that
      give the length of the name, the name, eight bytes that give the length
      of the content, the content, and then the rest of the files. */
  lemma StreamLayout(m: Contents, n: string)
    requires n in m && (forall k :: k in m && k != n ==> Below(CharLess, n, k))
    requires |Encode(n)| < 0x1_0000_0000 && |m[n]| < 0x1_0000_0000_0000_0000
    ensures var (s, e, c) := (Stream(m), |Encode(n)|, |m[n]|);
      && |s| >= 12 + e + c
      && Number(s[..4]) == e && s[4..4 + e] == Encode(n)
      && Number(s[4 + e..12 + e]) == c && s[12 + e..12 + e + c] == m[n]
      && s[12 + e + c..] == Stream(m - {n})
      && (forall i :: 0 <= i < 4 || 4 + e <= i < 12 + e ==> 0 <= s[i] < 256)
  {
    var (e, c) := (Encode(n), m[n]);
    hide BigEndian, Number, Encode, Stream, Below, CharLess;
    Capacities();
    NumberBigEndian(|e|, 4);
    NumberBigEndian(|c|, 8);
    BytesInRange(|e|, 4);
    BytesInRange(|c|, 8);
    StreamStep(m, n);
    FiveFields(BigEndian(|e|, 4), e, BigEndian(|c|, 8), c, Stream(m - {n}));
  }

  lemma FiveFields(a: Bytes, e: Bytes, b: Bytes, c: Bytes, rest: Bytes)
    requires |a| == 4 && |b| == 8 && Number(a) == |e| && Number(b) == |c|
    requires (forall x :: x in a ==> 0 <= x < 256) && (forall x :: x in b ==> 0 <= x < 256)
    ensures var (s, n, k) := (a + e + b + c + rest, |e|, |c|);
      && |s| >= 12 + n + k
      && Number(s[..4]) == n && s[4..4 + n] == e
      && Number(s[4 + n..12 + n]) == k && s[12 + n..12 + n + k] == c
      && s[12 + n + k..] == rest
      && (forall i :: 0 <= i < 4 || 4 + n <= i < 12 + n ==> 0 <= s[i] < 256)
  {
    hide Number;
    CutFour(a, e, b, c, rest);
    InRange(a, e, b, c, rest);
  }

  lemma InRange(a: Bytes, b: Bytes, c: Bytes, d: Bytes, e: Bytes)
    requires |a| == 4 && |c| == 8 && (forall x :: x in a ==> 0 <= x < 256) && (forall x :: x in c ==> 0 <= x < 256)
    ensures var s := a + b + c + d + e; forall i :: 0 <= i < 4 || 4 + |b| <= i < 12 + |b| ==> 0 <= s[i] < 256
  {
    var s := a + b + c + d + e;
    forall i | 0 <= i < 4 || 4 + |b| <= i < 12 + |b|
      ensures 0 <= s[i] < 256
    {
      if i < 4 {
        assert s[i] == a[i] && a[i] in a;
      } else {
        var j := i - 4 - |b|;
        assert s[i] == c[j] && c[j] in c;
      }
    }
  }

  lemma FrameLength(name: string, content: Bytes)
    ensures |Frame(name, content)| == 12 + |Encode(name)| + |content|
  {
    hide Encode;
  }

  function NameBytes(m: Contents): map<string, Bytes> { map n | n in m :: Encode(n) }

  /** Twelve bytes a file more than names and contents. */
  lemma {:induction false} StreamLength(m: Contents)
    ensures |Stream(m)| == 12 * |m| + Total(NameBytes(m)) + Total(m)
    decreases |m|
  {
    hide Frame, Encode, Total, Stream, NameBytes;
    StreamEmpty();
    NoNames();
    NothingWeighsNothing<string>();
    if m != map[] {
      var n := FirstFile(m);
      FrameLength(n, m[n]);
      TotalRemove(m, n);
      OneName(m, n);
      TotalRemove(NameBytes(m), n);
      StreamLength(m - {n});
      assert |m - {n}| == |m| - 1;
    }
  }

  lemma NoNames()
    ensures NameBytes(map[]) == map[]
  {
  }

  lemma OneName(m: Contents, n: string)
    requires n in m
    ensures n in NameBytes(m) && NameBytes(m)[n] == Encode(n) && NameBytes(m) - {n} == NameBytes(m - {n})
  {
    hide Encode;
  }

  lemma FirstFile(m: Contents) returns (n: string)
    requires m != map[]
    ensures n in m && Stream(m) == Frame(n, m[n]) + Stream(m - {n})
  {
    CharsAreOrdered();
    n := Least(CharLess, m.Keys);
    StreamStep(m, n);
  }

  /** Two files, whole: the names come in code point order. */
  lemma LiteralStreams()
    ensures Stream(map["a" := [7]]) == [0, 0, 0, 1, 97, 0, 0, 0, 0, 0, 0, 0, 1, 7]
    ensures Stream(map["b" := [8, 9], "a" := [7]]) ==
      [0, 0, 0, 1, 97, 0, 0, 0, 0, 0, 0, 0, 1, 7] + [0, 0, 0, 1, 98, 0, 0, 0, 0, 0, 0, 0, 2, 8, 9]
  {
    hide Stream, BigEndian, CharLess;
    StreamEmpty();
    var (one, two) := (map["a" := [7]], map["b" := [8, 9], "a" := [7]]);
    ShortFrame("a", [7]);
    ShortFrame("b", [8, 9]);
    OnlyLeast(one, "a");
    StreamStep(one, "a");
    assert one - {"a"} == map[];
    var rest := map["b" := [8, 9]];
    OnlyLeast(rest, "b");
    StreamStep(rest, "b");
    assert rest - {"b"} == map[];
    LettersInOrder(two);
    StreamStep(two, "a");
    assert two - {"a"} == rest;
  }

  lemma OnlyLeast(m: Contents, n: string)
    requires m.Keys == {n}
    ensures IsLeast(CharLess, n, m.Keys)
  {
  }

  lemma LettersInOrder(m: Contents)
    requires m.Keys == {"a", "b"}
    ensures IsLeast(CharLess, "a", m.Keys)
  {
    assert "a"[0] == 'a' && "b"[0] == 'b';
  }

  lemma ShortFrame(name: string, content: Bytes)
    requires |name| == 1 && name[0] as int < 0x80 && |content| < 256
    ensures Frame(name, content) == [0, 0, 0, 1, name[0] as int, 0, 0, 0, 0, 0, 0, 0, |content|] + content
  {
    FourBytes(1);
    EightBytes(|content|);
    OneChar(name[0]);
    assert name == [name[0]];
  }

  /** Code point order: a prefix comes first, and otherwise the first character
      that differs decides. */
  lemma {:induction false} OrderSpelled(p: string, c: char, a: string, d: char, b: string)
    requires c != d
    ensures Below(CharLess, p, p + [c] + a) && !Below(CharLess, p + [c] + a, p)
    ensures Below(CharLess, p + [c] + a, p + [d] + b) <==> (c as int) < (d as int)
    decreases |p|
  {
    if p == "" {
      assert p + [c] + a == [c] + a && p + [d] + b == [d] + b;
    } else {
      OrderSpelled(p[1..], c, a, d, b);
      assert (p + [c] + a)[1..] == p[1..] + [c] + a && (p + [d] + b)[1..] == p[1..] + [d] + b;
    }
  }
}
