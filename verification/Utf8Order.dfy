/** UTF-8 keeps the order of texts: comparing encoded bytes is comparing code
    points. */
module Utf8Order {
  import opened RunState
  import opened Order
  import opened Digest

  predicate ByteLess(a: int, b: int) { a < b }

  lemma {:induction false} BelowAt(a: Bytes, b: Bytes, i: nat)
    requires i < |a| && i < |b| && a[..i] == b[..i] && a[i] < b[i]
    ensures Below(ByteLess, a, b)
  {
    if i > 0 {
      assert a[0] == a[..i][0] == b[..i][0] == b[0];
      assert a[1..][..i - 1] == a[..i][1..] && b[1..][..i - 1] == b[..i][1..];
      BelowAt(a[1..], b[1..], i - 1);
    }
  }

  lemma {:induction false} SamePrefix(p: Bytes, x: Bytes, y: Bytes)
    ensures Below(ByteLess, p + x, p + y) <==> Below(ByteLess, x, y)
  {
    if p == [] {
      assert p + x == x && p + y == y;
    } else {
      assert (p + x)[1..] == p[1..] + x && (p + y)[1..] == p[1..] + y;
      SamePrefix(p[1..], x, y);
    }
  }

  /** Digits to base 64: the first that differs decides. */
  predicate DigitsLess(n: nat, m: nat) { n / 64 < m / 64 || (n / 64 == m / 64 && n % 64 < m % 64) }

  lemma FirstDigits(n: nat, m: nat)
    requires n < m
    ensures DigitsLess(n, m)
  {
  }

  /** What the encoder puts into the bytes, digit by digit. */
  function Bytes4(n: nat): Bytes {
    var q, r := n / 64, n / 64 / 64;
    if n < 0x80 then [n]
    else if n < 0x800 then [0xC0 + q, 0x80 + n % 64]
    else if n < 0x1_0000 then [0xE0 + r, 0x80 + q % 64, 0x80 + n % 64]
    else [0xF0 + r / 64, 0x80 + r % 64, 0x80 + q % 64, 0x80 + n % 64]
  }

  lemma EncodedDigits(c: char)
    ensures EncodeChar(c) == Bytes4(c as int)
  {
    var n := c as int;
    assert n / 64 / 64 == n / 4096 && n / 4096 / 64 == n / 262144;
  }

  predicate DiffersAt(a: Bytes, b: Bytes, i: nat) { i < |a| && i < |b| && a[..i] == b[..i] && a[i] < b[i] }

  lemma TwoDigits(q: nat, q': nat, x: nat, x': nat) returns (i: nat)
    requires q < q' || (q == q' && x < x')
    ensures DiffersAt([0xC0 + q, 0x80 + x], [0xC0 + q', 0x80 + x'], i)
  {
    i := if q < q' then 0 else 1;
  }

  lemma ThreeDigits(r: nat, r': nat, y: nat, y': nat, x: nat, x': nat) returns (i: nat)
    requires r < r' || (r == r' && (y < y' || (y == y' && x < x')))
    ensures DiffersAt([0xE0 + r, 0x80 + y, 0x80 + x], [0xE0 + r', 0x80 + y', 0x80 + x'], i)
  {
    i := if r < r' then 0 else if y < y' then 1 else 2;
  }

  lemma FourDigits(s: nat, s': nat, z: nat, z': nat, y: nat, y': nat, x: nat, x': nat) returns (i: nat)
    requires s < s' || (s == s' && (z < z' || (z == z' && (y < y' || (y == y' && x < x')))))
    ensures DiffersAt([0xF0 + s, 0x80 + z, 0x80 + y, 0x80 + x], [0xF0 + s', 0x80 + z', 0x80 + y', 0x80 + x'], i)
  {
    i := if s < s' then 0 else if z < z' then 1 else if y < y' then 2 else 3;
  }

  /** The first byte that differs. */
  lemma FirstDifference(n: nat, m: nat) returns (i: nat)
    requires n < m < 0x11_0000
    ensures DiffersAt(Bytes4(n), Bytes4(m), i)
  {
    if |Bytes4(n)| < |Bytes4(m)| {
      Leads(n);
      Leads(m);
      i := 0;
    } else {
      FirstDigits(n, m);
      var (q, q') := (n / 64, m / 64);
      if q < q' { FirstDigits(q, q'); }
      var (r, r') := (q / 64, q' / 64);
      if r < r' { FirstDigits(r, r'); }
      i := SameWidth(n, m);
    }
  }

  lemma SameWidth(n: nat, m: nat) returns (i: nat)
    requires n < m < 0x11_0000 && |Bytes4(n)| >= |Bytes4(m)| && DigitsLess(n, m)
    requires n / 64 < m / 64 ==> DigitsLess(n / 64, m / 64)
    requires n / 64 / 64 < m / 64 / 64 ==> DigitsLess(n / 64 / 64, m / 64 / 64)
    ensures DiffersAt(Bytes4(n), Bytes4(m), i)
  {
    hide DiffersAt;
    var (q, q', x, x') := (n / 64, m / 64, n % 64, m % 64);
    var (r, r', y, y') := (q / 64, q' / 64, q % 64, q' % 64);
    if n < 0x80 {
      i := OneByte(n, m);
    } else if n < 0x800 {
      i := TwoDigits(q, q', x, x');
    } else if n < 0x1_0000 {
      i := ThreeDigits(r, r', y, y', x, x');
    } else {
      i := FourDigits(r / 64, r' / 64, r % 64, r' % 64, y, y', x, x');
    }
  }

  lemma OneByte(n: nat, m: nat) returns (i: nat)
    requires n < m
    ensures DiffersAt([n], [m], i)
  {
    i := 0;
  }

  lemma Leads(n: nat)
    requires n < 0x11_0000
    ensures var (b, w) := (Bytes4(n)[0], |Bytes4(n)|);
      if w == 1 then b < 0x80 else if w == 2 then 0xC0 <= b < 0xE0 else if w == 3 then 0xE0 <= b < 0xF0 else 0xF0 <= b
  {
  }

  lemma LesserCharIsBelow(c: char, d: char, x: Bytes, y: Bytes)
    requires c < d
    ensures Below(ByteLess, EncodeChar(c) + x, EncodeChar(d) + y)
  {
    hide EncodeChar, Bytes4;
    EncodedDigits(c);
    EncodedDigits(d);
    var i := FirstDifference(c as int, d as int);
    var (a, b) := (EncodeChar(c), EncodeChar(d));
    assert (a + x)[..i] == a[..i] && (b + y)[..i] == b[..i];
    BelowAt(a + x, b + y, i);
  }

  /** Sorting by encoded bytes is sorting by code points. */
  lemma {:induction false} EncodingKeepsOrder(a: string, b: string)
    ensures Below(ByteLess, Encode(a), Encode(b)) <==> Below(CharLess, a, b)
  {
    hide EncodeChar;
    BytesAreOrdered();
    if a != "" { EncodedNonEmpty(a); }
    if b != "" { EncodedNonEmpty(b); }
    if a != "" && b != "" {
      if a[0] < b[0] {
        LesserCharIsBelow(a[0], b[0], Encode(a[1..]), Encode(b[1..]));
      } else if b[0] < a[0] {
        LesserCharIsBelow(b[0], a[0], Encode(b[1..]), Encode(a[1..]));
        BelowIsTotal(ByteLess, Encode(a), Encode(b));
      } else {
        SamePrefix(EncodeChar(a[0]), Encode(a[1..]), Encode(b[1..]));
        EncodingKeepsOrder(a[1..], b[1..]);
      }
    }
  }

  lemma BytesAreOrdered()
    ensures StrictTotal(ByteLess)
  {
  }
}
