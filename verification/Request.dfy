/** The observation request on the wire: which bytes are a request. */
module Request {
  import opened Names
  import opened Order
  import opened Codec
  import opened CodecLaws
  import opened Costs

  const REQUEST_MAX_BYTES: nat := 1024

  /** An ASCII literal as a text. */
  function Ascii(s: string): Text { seq(|s|, i requires 0 <= i < |s| => s[i] as int) }

  function RequestKeys(): set<Text> {
    {Ascii("archive_sha256"), Ascii("authorization_id"), Ascii("maximum_authorized_cost_microusd"), Ascii("operation"),
     Ascii("purpose"), Ascii("run_id"), Ascii("schema_version"), Ascii("season_number")}
  }

  predicate IsHexDigit(c: CodePoint) { 0x30 <= c <= 0x39 || 0x61 <= c <= 0x66 }

  predicate IsHex(t: Text) { forall c :: c in t ==> IsHexDigit(c) }

  predicate IsSha256(t: Text) { |t| == 64 && IsHex(t) }

  predicate IsRunId(t: Text) { |t| == 31 && t[..15] == Ascii("speaker-review-") && IsHex(t[15..]) }

  /** A version 4 identifier in its canonical lower-case spelling. */
  predicate IsUuid4(t: Text) {
    && |t| == 36 && t[8] == t[13] == t[18] == t[23] == 0x2D
    && IsHex(t[..8] + t[9..13] + t[14..18] + t[19..23] + t[24..])
    && t[14] == 0x34 && t[19] in {0x38, 0x39, 0x61, 0x62}
  }

  function Field(m: Object, key: string): Option<Scalar> {
    if Ascii(key) in m then Some(m[Ascii(key)]) else None
  }

  predicate TextField(m: Object, key: string, ok: Text -> bool) {
    match Field(m, key)
    case Some(Str(t)) => ok(t)
    case _ => false
  }

  predicate FieldsValid(m: Object) {
    && m.Keys == RequestKeys()
    && Field(m, "schema_version") == Some(Int(1))
    && Field(m, "operation") == Some(Str(Ascii("observe_final_review_part_one")))
    && Field(m, "purpose") == Some(Str(Ascii("speaker_review")))
    && Field(m, "season_number") == Some(Int(2))
    && TextField(m, "archive_sha256", IsSha256)
    && TextField(m, "run_id", IsRunId)
    && TextField(m, "authorization_id", IsUuid4)
    && (match Field(m, "maximum_authorized_cost_microusd")
        case Some(Int(cost)) => 0 < cost <= CAP
        case _ => false)
  }

  /** Validation prints the object and reads it back before it looks at fields. */
  ghost function ValidateRequest(m: Object): Option<Object> {
    var decoded := Decode(Print(m), REQUEST_MAX_BYTES);
    if decoded.Some? && FieldsValid(decoded.value) then decoded else None
  }

  ghost function ParseRequest(raw: string): Option<Object> {
    var decoded := Decode(raw, REQUEST_MAX_BYTES);
    if decoded.None? then None else ValidateRequest(decoded.value)
  }

  // ------------------------------------------------------------ how long it is

  /** Characters printed as themselves. */
  predicate IsBare(c: CodePoint) { 0x20 <= c <= 0x7E && c != 0x22 && c != 0x5C }

  predicate AllBare(t: Text) { forall c :: c in t ==> IsBare(c) }

  lemma {:induction false} BareLength(t: Text)
    requires AllBare(t)
    ensures |PrintChars(t)| == |t| && Plain(t)
  {
    if t != [] {
      assert forall c :: c in t[1..] ==> c in t;
      BareLength(t[1..]);
      assert IsBare(t[0]);
    }
    assert forall i :: 0 <= i < |t| ==> IsBare(t[i]);
  }

  lemma HexIsBare(t: Text)
    requires IsHex(t)
    ensures AllBare(t)
  {
  }

  predicate ShortScalar(v: Scalar) {
    match v
    case Str(t) => AllBare(t) && |t| <= 64
    case Int(n) => 0 <= n <= 9_999_999
  }

  predicate ShortObject(m: Object) {
    forall k :: k in m ==> AllBare(k) && |k| <= 32 && ShortScalar(m[k])
  }

  lemma ShortValueLength(v: Scalar)
    requires ShortScalar(v)
    ensures |PrintValue(v)| <= 66 && PlainScalar(v)
  {
    match v
    case Str(t) => BareLength(t);
    case Int(n) => SevenDigits(n);
  }

  lemma SevenDigits(n: nat)
    requires n <= 9_999_999
    ensures |Decimal(n)| <= 7
  {
    assert n / 10 / 10 / 10 / 10 / 10 / 10 <= 9;
    assert |Decimal(n / 10 / 10 / 10 / 10 / 10 / 10)| == 1;
    assert |Decimal(n / 10 / 10 / 10 / 10 / 10)| <= 2;
    assert |Decimal(n / 10 / 10 / 10 / 10)| <= 3;
    assert |Decimal(n / 10 / 10 / 10)| <= 4;
    assert |Decimal(n / 10 / 10)| <= 5;
    assert |Decimal(n / 10)| <= 6;
  }

  lemma ShortMemberLength(k: Text, v: Scalar)
    requires AllBare(k) && |k| <= 32 && ShortScalar(v)
    ensures |Member(k, v)| <= 101 && Plain(k) && PlainScalar(v)
  {
    BareLength(k);
    ShortValueLength(v);
  }

  lemma {:induction false} ShortMembersLength(m: Object)
    requires m != map[] && ShortObject(m)
    ensures |Members(m)| <= 102 * |m|
    decreases |m|
  {
    hide Member, AllBare;
    PointsAreOrdered();
    var k := Least(PointLess, m.Keys);
    ShortMemberLength(k, m[k]);
    if m - {k} != map[] { ShortMembersLength(m - {k}); }
  }

  lemma ShortObjectFits(m: Object)
    requires ShortObject(m) && |m| <= 8
    ensures |Print(m)| <= 820 && PlainObject(m)
  {
    hide Members, AllBare;
    if m != map[] { ShortMembersLength(m); }
    forall k | k in m ensures Plain(k) && PlainScalar(m[k]) { ShortMemberLength(k, m[k]); }
  }

  // --------------------------------------------------------------- the fields

  lemma LiteralIsBare(s: string)
    requires |s| <= 64 && forall i :: 0 <= i < |s| ==> s[i] == '_' || s[i] == '-' || 'a' <= s[i] <= 'z' || '0' <= s[i] <= '9'
    ensures AllBare(Ascii(s)) && |Ascii(s)| == |s|
  {
  }

  lemma KeysAreShort(k: Text)
    requires k in RequestKeys()
    ensures AllBare(k) && |k| <= 32
  {
    LiteralIsBare("archive_sha256");
    LiteralIsBare("authorization_id");
    LiteralIsBare("maximum_authorized_cost_microusd");
    LiteralIsBare("operation");
    LiteralIsBare("purpose");
    LiteralIsBare("run_id");
    LiteralIsBare("schema_version");
    LiteralIsBare("season_number");
  }

  lemma RunIdIsBare(t: Text)
    requires IsRunId(t)
    ensures AllBare(t)
  {
    LiteralIsBare("speaker-review-");
    HexIsBare(t[15..]);
    assert t == t[..15] + t[15..];
  }

  lemma UuidIsBare(t: Text)
    requires IsUuid4(t)
    ensures AllBare(t)
  {
    HexIsBare(t[..8] + t[9..13] + t[14..18] + t[19..23] + t[24..]);
    assert t == t[..8] + [t[8]] + t[9..13] + [t[13]] + t[14..18] + [t[18]] + t[19..23] + [t[23]] + t[24..];
  }

  lemma FieldIsShort(m: Object, k: Text)
    requires FieldsValid(m) && k in m
    ensures ShortScalar(m[k])
  {
    LiteralIsBare("observe_final_review_part_one");
    LiteralIsBare("speaker_review");
    forall t | IsSha256(t) ensures AllBare(t) { HexIsBare(t); }
    forall t | IsRunId(t) ensures AllBare(t) { RunIdIsBare(t); }
    forall t | IsUuid4(t) ensures AllBare(t) { UuidIsBare(t); }
    hide AllBare, Ascii, IsHex;
  }

  /** Every request with valid fields fits, with room to spare. */
  lemma ValidRequestsFit(m: Object)
    requires FieldsValid(m)
    ensures |Print(m)| <= 820 <= REQUEST_MAX_BYTES && PlainObject(m)
  {
    forall k | k in m ensures AllBare(k) && |k| <= 32 && ShortScalar(m[k]) {
      KeysAreShort(k);
      FieldIsShort(m, k);
    }
    EightKeys(m);
    ShortObjectFits(m);
  }

  lemma EightKeys(m: Object)
    requires m.Keys == RequestKeys()
    ensures |m| <= 8
  {
    hide Ascii;
    EightAtMost(Ascii("archive_sha256"), Ascii("authorization_id"), Ascii("maximum_authorized_cost_microusd"), Ascii("operation"),
                Ascii("purpose"), Ascii("run_id"), Ascii("schema_version"), Ascii("season_number"));
    assert |m| == |m.Keys|;
  }

  lemma EightAtMost<T>(a: T, b: T, c: T, d: T, e: T, f: T, g: T, h: T)
    ensures |{a, b, c, d, e, f, g, h}| <= 8
  {
    assert |{a}| <= 1;
    assert |{a, b}| <= 2 by { assert {a, b} == {a} + {b}; }
    assert |{a, b, c}| <= 3 by { assert {a, b, c} == {a, b} + {c}; }
    assert |{a, b, c, d}| <= 4 by { assert {a, b, c, d} == {a, b, c} + {d}; }
    assert |{a, b, c, d, e}| <= 5 by { assert {a, b, c, d, e} == {a, b, c, d} + {e}; }
    assert |{a, b, c, d, e, f}| <= 6 by { assert {a, b, c, d, e, f} == {a, b, c, d, e} + {f}; }
    assert |{a, b, c, d, e, f, g}| <= 7 by { assert {a, b, c, d, e, f, g} == {a, b, c, d, e, f} + {g}; }
    assert {a, b, c, d, e, f, g, h} == {a, b, c, d, e, f, g} + {h};
  }

  // ----------------------------------------------------------------- theorems

  /** Valid requests validate to themselves: the size cap never refuses one. */
  lemma ValidRequestsValidate(m: Object)
    requires FieldsValid(m)
    ensures ValidateRequest(m) == Some(m)
  {
    hide FieldsValid, Decode, Print;
    ValidRequestsFit(m);
    RoundTripExactly(m, REQUEST_MAX_BYTES);
  }

  /** The bytes of a request are the canonical print of valid fields, and
      nothing else is: one spelling per request, one request per spelling. */
  lemma RequestExactly(raw: string, m: Object)
    ensures ParseRequest(raw) == Some(m) <==> raw == Print(m) && FieldsValid(m)
  {
    hide FieldsValid, Decode, Print;
    if FieldsValid(m) {
      ValidRequestsFit(m);
      ValidRequestsValidate(m);
    }
    DecodeExactly(raw, REQUEST_MAX_BYTES, m);
    var decoded := Decode(raw, REQUEST_MAX_BYTES);
    if decoded.Some? {
      DecodeExactly(raw, REQUEST_MAX_BYTES, decoded.value);
    }
  }
}
