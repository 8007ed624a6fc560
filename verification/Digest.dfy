/** The framed set digest: names in order, each name and each content behind a
    big-endian length, fed piece by piece to a running hash.  The bytes fed
    determine the set of files. */
module Digest {
  import opened Names
  import opened RunState
  import opened Files
  import opened Order

  // ------------------------------------------------------------------ UTF-8

  function EncodeChar(c: char): Bytes {
    var n := c as int;
    if n < 0x80 then [n]
    else if n < 0x800 then [0xC0 + n / 64, 0x80 + n % 64]
    else if n < 0x1_0000 then [0xE0 + n / 4096, 0x80 + n / 64 % 64, 0x80 + n % 64]
    else [0xF0 + n / 262144, 0x80 + n / 4096 % 64, 0x80 + n / 64 % 64, 0x80 + n % 64]
  }

  function Encode(s: string): Bytes {
    if s == "" then [] else EncodeChar(s[0]) + Encode(s[1..])
  }

  /** How many bytes a character takes, told by its first byte. */
  function Width(lead: int): nat {
    if lead < 0x80 then 1 else if lead < 0xE0 then 2 else if lead < 0xF0 then 3 else 4
  }

  function DecodeChar(b: Bytes): int
    requires |b| > 0 && |b| == Width(b[0])
  {
    match |b|
    case 1 => b[0]
    case 2 => (b[0] - 0xC0) * 64 + (b[1] - 0x80)
    case 3 => (b[0] - 0xE0) * 4096 + (b[1] - 0x80) * 64 + (b[2] - 0x80)
    case _ => (b[0] - 0xF0) * 262144 + (b[1] - 0x80) * 4096 + (b[2] - 0x80) * 64 + (b[3] - 0x80)
  }

  lemma DecodeEncodedChar(c: char)
    ensures EncodeChar(c) != [] && |EncodeChar(c)| == Width(EncodeChar(c)[0])
    ensures DecodeChar(EncodeChar(c)) == c as int
  {
    var n := c as int;
    assert n / 64 / 64 == n / 4096 && n / 4096 / 64 == n / 262144;
  }

  lemma {:induction false} EncodeInjective(a: string, b: string)
    requires Encode(a) == Encode(b)
    ensures a == b
  {
    if a != "" { EncodedNonEmpty(a); }
    if b != "" { EncodedNonEmpty(b); }
    if a != "" && b != "" {
      DecodeEncodedChar(a[0]);
      DecodeEncodedChar(b[0]);
      SplitEqual(EncodeChar(a[0]), Encode(a[1..]), EncodeChar(b[0]), Encode(b[1..]));
      EncodeInjective(a[1..], b[1..]);
      assert a == [a[0]] + a[1..] && b == [b[0]] + b[1..];
    }
  }

  lemma EncodedNonEmpty(s: string)
    requires s != ""
    ensures Encode(s) != [] && Encode(s)[0] == EncodeChar(s[0])[0]
  {
    DecodeEncodedChar(s[0]);
  }

  /** Equal concatenations whose first parts are told apart by their first
      byte are equal part by part. */
  lemma SplitEqual(x: Bytes, r: Bytes, y: Bytes, t: Bytes)
    requires x + r == y + t
    requires x != [] && y != [] && |x| == Width(x[0]) && |y| == Width(y[0])
    ensures x == y && r == t
  {
    assert (x + r)[0] == x[0] && (y + t)[0] == y[0];
    Cut(x, r, y, t);
  }

  lemma Cut(x: Bytes, r: Bytes, y: Bytes, t: Bytes)
    requires x + r == y + t && |x| == |y|
    ensures x == y && r == t
  {
    assert x == (x + r)[..|x|] && y == (y + t)[..|y|];
    assert r == (x + r)[|x|..] && t == (y + t)[|y|..];
  }

  // ---------------------------------------------------------------- lengths

  function Capacity(width: nat): nat { if width == 0 then 1 else 256 * Capacity(width - 1) }

  function BigEndian(n: nat, width: nat): (b: Bytes)
    ensures |b| == width
  {
    if width == 0 then [] else BigEndian(n / 256, width - 1) + [n % 256]
  }

  function Number(b: Bytes): int {
    if b == [] then 0 else Number(b[..|b| - 1]) * 256 + b[|b| - 1]
  }

  lemma {:induction false} NumberBigEndian(n: nat, width: nat)
    requires n < Capacity(width)
    ensures Number(BigEndian(n, width)) == n
  {
    if width > 0 {
      var b := BigEndian(n, width);
      NumberBigEndian(n / 256, width - 1);
      assert b[..|b| - 1] == BigEndian(n / 256, width - 1);
    }
  }

  lemma Capacities()
    ensures Capacity(4) == 0x1_0000_0000 && Capacity(8) == 0x1_0000_0000_0000_0000
  {
    assert Capacity(3) == 0x100_0000;
    assert Capacity(5) == 256 * Capacity(4);
    assert Capacity(6) == 256 * Capacity(5);
    assert Capacity(7) == 256 * Capacity(6);
  }

  // ----------------------------------------------------------------- frames

  /** Lengths that fit their four and eight bytes; others overflow. */
  predicate Fits(name: string, content: Bytes) {
    |Encode(name)| < 0x1_0000_0000 && |content| < 0x1_0000_0000_0000_0000
  }

  function Frame(name: string, content: Bytes): Bytes {
    BigEndian(|Encode(name)|, 4) + Encode(name) + BigEndian(|content|, 8) + content
  }

  /** A frame says where it ends: what follows it cannot be confused with it. */
  lemma FrameCancels(n: string, c: Bytes, r: Bytes, n': string, c': Bytes, r': Bytes)
    requires Fits(n, c) && Fits(n', c')
    requires Frame(n, c) + r == Frame(n', c') + r'
    ensures n == n' && c == c' && r == r'
  {
    LengthCancels(Encode(n), BigEndian(|c|, 8) + c + r, Encode(n'), BigEndian(|c'|, 8) + c' + r', 4) by {
      Reassociate(BigEndian(|Encode(n)|, 4), Encode(n), BigEndian(|c|, 8), c, r);
      Reassociate(BigEndian(|Encode(n')|, 4), Encode(n'), BigEndian(|c'|, 8), c', r');
      Capacities();
    }
    EncodeInjective(n, n');
    LengthCancels(c, r, c', r', 8) by { Capacities(); }
  }

  lemma Reassociate(a: Bytes, b: Bytes, c: Bytes, d: Bytes, e: Bytes)
    ensures a + b + c + d + e == a + b + (c + d + e)
  {
  }

  lemma LengthCancels(x: Bytes, r: Bytes, y: Bytes, t: Bytes, width: nat)
    requires |x| < Capacity(width) && |y| < Capacity(width)
    requires BigEndian(|x|, width) + x + r == BigEndian(|y|, width) + y + t
    ensures x == y && r == t
  {
    NumberBigEndian(|x|, width);
    NumberBigEndian(|y|, width);
    CutThree(BigEndian(|x|, width), x, r, BigEndian(|y|, width), y, t);
    Cut(x, r, y, t);
  }

  lemma CutThree(p: Bytes, x: Bytes, r: Bytes, q: Bytes, y: Bytes, t: Bytes)
    requires |p| == |q| && p + x + r == q + y + t
    ensures p == q && x + r == y + t
  {
    assert p + (x + r) == p + x + r && q + (y + t) == q + y + t;
    Cut(p, x + r, q, y + t);
  }

  // ------------------------------------------------------------------ order

  /** Code point order, the order of `sorted` on strings. */
  predicate CharLess(a: char, b: char) { a < b }

  lemma CharsAreOrdered()
    ensures StrictTotal(CharLess)
  {
  }

  // ----------------------------------------------------------------- stream

  /** Everything the hash is fed for one set of files. */
  ghost function Stream(m: Contents): Bytes
    decreases |m|
  {
    if m == map[] then [] else
    CharsAreOrdered();
    var n := Least(CharLess, m.Keys);
    Frame(n, m[n]) + Stream(m - {n})
  }

  lemma StreamStep(m: Contents, n: string)
    requires IsLeast(CharLess, n, m.Keys)
    ensures Stream(m) == Frame(n, m[n]) + Stream(m - {n})
  {
    CharsAreOrdered();
    LeastUnique(CharLess, Least(CharLess, m.Keys), n, m.Keys);
  }

  predicate Framable(m: Contents) { forall n :: n in m ==> Fits(n, m[n]) }

  /** Different sets of files feed the hash different bytes. */
  lemma {:induction false} StreamInjective(a: Contents, b: Contents)
    requires Framable(a) && Framable(b) && Stream(a) == Stream(b)
    ensures a == b
    decreases |a|
  {
    hide Frame, Fits, Stream, CharLess;
    StreamEmpty();
    if a == map[] || b == map[] {
      if a != map[] { StreamNonEmpty(a); }
      if b != map[] { StreamNonEmpty(b); }
    } else {
      CharsAreOrdered();
      var (n, k) := (Least(CharLess, a.Keys), Least(CharLess, b.Keys));
      StreamStep(a, n);
      StreamStep(b, k);
      FrameCancels(n, a[n], Stream(a - {n}), k, b[k], Stream(b - {k}));
      StreamInjective(a - {n}, b - {k});
      assert a == (a - {n})[n := a[n]] && b == (b - {n})[n := b[n]];
    }
  }

  lemma StreamEmpty()
    ensures Stream(map[]) == []
  {
  }

  lemma StreamNonEmpty(m: Contents)
    requires m != map[]
    ensures Stream(m) != []
  {
    CharsAreOrdered();
    StreamStep(m, Least(CharLess, m.Keys));
  }

  // ------------------------------------------------------------ running hash

  /** A hash object: the digest depends on all the bytes fed so far, in order.
      The hash function itself is a parameter. */
  class Hasher {
    var fed: Bytes

    constructor ()
      ensures fed == []
    {
      fed := [];
    }

    method Update(chunk: Bytes)
      modifies this
      ensures fed == old(fed) + chunk
    {
      fed := fed + chunk;
    }

    method HexDigest(hash: Bytes -> string) returns (digest: string)
      ensures digest == hash(fed)
    {
      digest := hash(fed);
    }
  }

  /** One turn of the loop: four updates, unless a length overflows. */
  method FeedFrame(hasher: Hasher, name: string, content: Bytes) returns (fits: bool)
    modifies hasher
    ensures fits == Fits(name, content)
    ensures fits ==> hasher.fed == old(hasher.fed) + Frame(name, content)
  {
    var encoded := Encode(name);
    if |encoded| >= 0x1_0000_0000 { return false; }
    hasher.Update(BigEndian(|encoded|, 4));
    hasher.Update(encoded);
    if |content| >= 0x1_0000_0000_0000_0000 { return false; }
    hasher.Update(BigEndian(|content|, 8));
    hasher.Update(content);
    FourPieces(old(hasher.fed), BigEndian(|encoded|, 4), encoded, BigEndian(|content|, 8), content);
    return true;
  }

  /** The digest of a set of files; no digest when a length overflows. */
  method SetDigest(contents: Contents, hash: Bytes -> string) returns (digest: Option<string>)
    ensures digest == if Framable(contents) then Some(hash(Stream(contents))) else None
  {
    hide Frame, Fits, Stream, IsLeast, CharLess;
    CharsAreOrdered();
    StreamEmpty();
    var hasher := new Hasher();
    var rest := contents;
    while rest != map[]
      invariant forall n :: n in rest ==> n in contents && rest[n] == contents[n]
      invariant forall n :: n in contents && n !in rest ==> Fits(n, contents[n])
      invariant hasher.fed + Stream(rest) == Stream(contents)
      decreases |rest|
    {
      var name := PickLeast(CharLess, rest.Keys);
      StreamStep(rest, name);
      ghost var before := hasher.fed;
      var framed := FeedFrame(hasher, name, rest[name]);
      if !framed { return None; }
      assert before + Frame(name, rest[name]) + Stream(rest - {name}) == before + (Frame(name, rest[name]) + Stream(rest - {name}));
      rest := rest - {name};
    }
    assert hasher.fed + [] == hasher.fed;
    var d := hasher.HexDigest(hash);
    return Some(d);
  }

  lemma FourPieces(a: Bytes, b: Bytes, c: Bytes, d: Bytes, e: Bytes)
    ensures a + b + c + d + e == a + (b + c + d + e)
  {
  }
}
