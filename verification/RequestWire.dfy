/** The text of a request on the wire, spelled out, and what each of its fields
    has to be. */
module RequestWire {
  import opened Names
  import opened Order
  import opened Codec
  import opened CodecLaws
  import opened Request

  // --------------------------------------------------------------- printing

  /** Characters that need no escape. */
  predicate BareText(s: string) { forall i :: 0 <= i < |s| ==> ' ' <= s[i] <= '~' && s[i] != '"' && s[i] != '\\' }

  lemma {:induction false} BarePrints(s: string)
    requires BareText(s)
    ensures PrintChars(Ascii(s)) == s && Plain(Ascii(s))
  {
    if s == "" {
      assert Ascii(s) == [];
    } else {
      assert Ascii(s)[1..] == Ascii(s[1..]) && s == [s[0]] + s[1..];
      assert forall i :: 0 <= i < |s[1..]| ==> s[1..][i] == s[i + 1];
      BarePrints(s[1..]);
      assert PrintChar(Ascii(s)[0]) == [s[0]];
    }
    assert forall i :: 0 <= i < |s| ==> Ascii(s)[i] < 0x7F;
  }

  lemma QuoteBare(s: string)
    requires BareText(s)
    ensures Quote(Ascii(s)) == "\"" + s + "\""
  {
    BarePrints(s);
  }

  /** The members of an object begin with that of its least key. */
  lemma MembersFrom(m: Object, k: Text)
    requires IsLeast(PointLess, k, m.Keys)
    ensures m != map[] && Members(m) == Member(k, m[k]) + (if m - {k} == map[] then "" else "," + Members(m - {k}))
  {
    PointsAreOrdered();
    LeastUnique(PointLess, Least(PointLess, m.Keys), k, m.Keys);
  }

  // --------------------------------------------------------------- template

  /** The eight values of a request. */
  datatype Fields = Fields(archive: string, authorization: string, cost: int, operation: string, purpose: string,
                           run: string, schema: int, season: int)

  function ObjectOf(f: Fields): Object {
    map[Ascii("archive_sha256") := Str(Ascii(f.archive)),
        Ascii("authorization_id") := Str(Ascii(f.authorization)),
        Ascii("maximum_authorized_cost_microusd") := Int(f.cost),
        Ascii("operation") := Str(Ascii(f.operation)),
        Ascii("purpose") := Str(Ascii(f.purpose)),
        Ascii("run_id") := Str(Ascii(f.run)),
        Ascii("schema_version") := Int(f.schema),
        Ascii("season_number") := Int(f.season)]
  }

  function TextKey(key: string, value: string): string { "\"" + key + "\":\"" + value + "\"" }

  function NumberKey(key: string, value: int): string { "\"" + key + "\":" + PrintInt(value) }

  /** The wire text with these values. */
  function Wire(f: Fields): string {
    "{" + TextKey("archive_sha256", f.archive)
    + "," + TextKey("authorization_id", f.authorization)
    + "," + NumberKey("maximum_authorized_cost_microusd", f.cost)
    + "," + TextKey("operation", f.operation)
    + "," + TextKey("purpose", f.purpose)
    + "," + TextKey("run_id", f.run)
    + "," + NumberKey("schema_version", f.schema)
    + "," + NumberKey("season_number", f.season)
    + "}\n"
  }

  predicate BareFields(f: Fields) {
    BareText(f.archive) && BareText(f.authorization) && BareText(f.operation) && BareText(f.purpose) && BareText(f.run)
  }

  // ------------------------------------------------------------ sorted keys

  /** The keys of a request, in the order they are printed. */
  function Keys(): seq<Text> {
    [Ascii("archive_sha256"), Ascii("authorization_id"), Ascii("maximum_authorized_cost_microusd"), Ascii("operation"),
     Ascii("purpose"), Ascii("run_id"), Ascii("schema_version"), Ascii("season_number")]
  }

  predicate Ascending(ks: seq<Text>) { forall i, j :: 0 <= i < j < |ks| ==> Below(PointLess, ks[i], ks[j]) }

  ghost predicate KeysOf(m: Object, ks: seq<Text>) { forall k :: k in m <==> k in ks }

  ghost function JoinMembers(m: Object, ks: seq<Text>): string
    requires ks != [] && forall k :: k in ks ==> k in m
  {
    Member(ks[0], m[ks[0]]) + (if |ks| == 1 then "" else "," + JoinMembers(m, ks[1..]))
  }

  lemma {:induction false} JoinIgnores(m: Object, k: Text, ks: seq<Text>)
    requires ks != [] && k !in ks && forall j :: j in ks ==> j in m
    ensures JoinMembers(m - {k}, ks) == JoinMembers(m, ks)
  {
    hide Member;
    if |ks| > 1 { JoinIgnores(m, k, ks[1..]); }
  }

  lemma FirstIsLeast(m: Object, ks: seq<Text>)
    requires ks != [] && Ascending(ks) && KeysOf(m, ks)
    ensures IsLeast(PointLess, ks[0], m.Keys) && ks[0] !in ks[1..]
    ensures Ascending(ks[1..]) && KeysOf(m - {ks[0]}, ks[1..])
  {
    PointsAreOrdered();
    forall k | k in m && k != ks[0]
      ensures Below(PointLess, ks[0], k)
    {
      var i :| 0 <= i < |ks| && ks[i] == k;
    }
    forall i | 0 < i < |ks|
      ensures ks[i] != ks[0]
    {
      BelowIsTotal(PointLess, ks[0], ks[i]);
    }
    hide Below;
    assert forall i :: 0 <= i < |ks[1..]| ==> ks[1..][i] == ks[i + 1];
    forall k
      ensures k in m - {ks[0]} <==> k in ks[1..]
    {
      if k in ks && k != ks[0] {
        var i :| 0 <= i < |ks| && ks[i] == k;
        assert ks[1..][i - 1] == k;
      }
    }
  }

  lemma {:induction false} MembersInOrder(m: Object, ks: seq<Text>)
    requires ks != [] && Ascending(ks) && KeysOf(m, ks)
    ensures m != map[] && Members(m) == JoinMembers(m, ks)
    decreases |ks|
  {
    hide Member, Ascending, IsLeast, Members;
    FirstIsLeast(m, ks);
    MembersFrom(m, ks[0]);
    if |ks| > 1 {
      assert ks[1] == ks[1..][0] && ks[1] in m - {ks[0]};
      MembersInOrder(m - {ks[0]}, ks[1..]);
      JoinIgnores(m, ks[0], ks[1..]);
    } else {
      assert forall k :: k !in m - {ks[0]};
      assert m - {ks[0]} == map[];
    }
  }

  lemma FirstDiffers(a: string, b: string)
    requires a != "" && b != "" && a[0] < b[0]
    ensures Below(PointLess, Ascii(a), Ascii(b))
  {
  }

  lemma SecondDiffers(a: string, b: string)
    requires |a| > 1 && |b| > 1 && a[0] == b[0] && a[1] < b[1]
    ensures Below(PointLess, Ascii(a), Ascii(b))
  {
    assert Ascii(a)[1..][0] == a[1] as int && Ascii(b)[1..][0] == b[1] as int;
    assert Below(PointLess, Ascii(a)[1..], Ascii(b)[1..]);
  }

  /** Told apart by their first letters, or by their second. */
  lemma KeysAscend()
    ensures Ascending(Keys())
  {
    var names := ["archive_sha256", "authorization_id", "maximum_authorized_cost_microusd", "operation", "purpose", "run_id",
                  "schema_version", "season_number"];
    SecondDiffers(names[0], names[1]);
    SecondDiffers(names[6], names[7]);
    Heads(names);
    hide Below, Ascii;
    forall i, j | 0 <= i < j < 8 && (i, j) != (0, 1) && (i, j) != (6, 7)
      ensures Below(PointLess, Ascii(names[i]), Ascii(names[j]))
    {
      FirstDiffers(names[i], names[j]);
    }
    assert Keys() == [Ascii(names[0]), Ascii(names[1]), Ascii(names[2]), Ascii(names[3]), Ascii(names[4]), Ascii(names[5]),
                      Ascii(names[6]), Ascii(names[7])];
    assert forall i :: 0 <= i < 8 ==> Keys()[i] == Ascii(names[i]);
  }

  lemma Heads(names: seq<string>)
    requires names == ["archive_sha256", "authorization_id", "maximum_authorized_cost_microusd", "operation", "purpose", "run_id",
                       "schema_version", "season_number"]
    ensures forall i, j :: 0 <= i < j < 8 && (i, j) != (0, 1) && (i, j) != (6, 7) ==>
      names[i] != "" && names[j] != "" && names[i][0] < names[j][0]
  {
    assert names[0][0] == 'a' && names[1][0] == 'a' && names[2][0] == 'm' && names[3][0] == 'o' && names[4][0] == 'p';
    assert names[5][0] == 'r' && names[6][0] == 's' && names[7][0] == 's';
  }

  lemma KeysDiffer()
    ensures forall i, j :: 0 <= i < j < 8 ==> Keys()[i] != Keys()[j]
  {
    KeysAscend();
    PointsAreOrdered();
    forall i, j | 0 <= i < j < 8
      ensures Keys()[i] != Keys()[j]
    {
      BelowIsTotal(PointLess, Keys()[i], Keys()[j]);
    }
  }

  lemma ValuesOf(f: Fields)
    ensures var (m, k) := (ObjectOf(f), Keys());
      && m.Keys == RequestKeys() && KeysOf(m, k)
      && m[k[0]] == Str(Ascii(f.archive)) && m[k[1]] == Str(Ascii(f.authorization)) && m[k[2]] == Int(f.cost)
      && m[k[3]] == Str(Ascii(f.operation)) && m[k[4]] == Str(Ascii(f.purpose)) && m[k[5]] == Str(Ascii(f.run))
      && m[k[6]] == Int(f.schema) && m[k[7]] == Int(f.season)
  {
    hide Ascii;
    var k := Keys();
    KeysDiffer();
    EightLookups(k[0], k[1], k[2], k[3], k[4], k[5], k[6], k[7], ObjectOf(f), f);
  }

  lemma EightLookups(a: Text, b: Text, c: Text, d: Text, e: Text, g: Text, h: Text, i: Text, m: Object, f: Fields)
    requires a != b && a != c && a != d && a != e && a != g && a != h && a != i
    requires b != c && b != d && b != e && b != g && b != h && b != i && c != d && c != e && c != g && c != h && c != i
    requires d != e && d != g && d != h && d != i && e != g && e != h && e != i && g != h && g != i && h != i
    requires m == map[a := Str(Ascii(f.archive)), b := Str(Ascii(f.authorization)), c := Int(f.cost),
                      d := Str(Ascii(f.operation)), e := Str(Ascii(f.purpose)), g := Str(Ascii(f.run)),
                      h := Int(f.schema), i := Int(f.season)]
    ensures m.Keys == {a, b, c, d, e, g, h, i}
    ensures m[a] == Str(Ascii(f.archive)) && m[b] == Str(Ascii(f.authorization)) && m[c] == Int(f.cost)
    ensures m[d] == Str(Ascii(f.operation)) && m[e] == Str(Ascii(f.purpose)) && m[g] == Str(Ascii(f.run))
    ensures m[h] == Int(f.schema) && m[i] == Int(f.season)
  {
    hide Ascii;
  }

  // ----------------------------------------------------------------- the text

  /** The keys as they are spelled. */
  function Spelled(): seq<string> {
    ["archive_sha256", "authorization_id", "maximum_authorized_cost_microusd", "operation", "purpose", "run_id",
     "schema_version", "season_number"]
  }

  lemma KeysAreBare(i: nat)
    requires i < 8
    ensures Keys()[i] == Ascii(Spelled()[i]) && BareText(Spelled()[i])
  {
    hide Ascii, BareText;
    FirstWords();
    LongWord();
    MoreWords();
    LastWords();
    var k := Spelled();
    assert k[0] == "archive_sha256" && k[1] == "authorization_id" && k[2] == "maximum_authorized_cost_microusd";
    assert k[3] == "operation" && k[4] == "purpose" && k[5] == "run_id" && k[6] == "schema_version" && k[7] == "season_number";
  }

  lemma FirstWords()
    ensures BareText("archive_sha256") && BareText("authorization_id")
  {
  }

  lemma LongWord()
    ensures BareText("maximum_authorized_cost_microusd")
  {
  }

  lemma MoreWords()
    ensures BareText("operation") && BareText("purpose") && BareText("run_id")
  {
  }

  lemma LastWords()
    ensures BareText("schema_version") && BareText("season_number")
  {
  }

  lemma TextMember(key: string, value: string)
    requires BareText(key) && BareText(value)
    ensures Member(Ascii(key), Str(Ascii(value))) == TextKey(key, value)
  {
    QuoteBare(key);
    QuoteBare(value);
    hide Ascii, Quote;
    Around(key, value);
  }

  lemma Around(key: string, value: string)
    ensures "\"" + key + "\"" + ":" + ("\"" + value + "\"") == "\"" + key + "\":\"" + value + "\""
  {
  }

  lemma NumberMember(key: string, value: int)
    requires BareText(key)
    ensures Member(Ascii(key), Int(value)) == NumberKey(key, value)
  {
    QuoteBare(key);
    hide Ascii, Quote, PrintInt;
    AroundNumber(key, PrintInt(value));
  }

  lemma AroundNumber(key: string, value: string)
    ensures "\"" + key + "\"" + ":" + value == "\"" + key + "\":" + value
  {
  }

  lemma JoinEight(m: Object, k: seq<Text>)
    requires |k| == 8 && forall t :: t in k ==> t in m
    ensures JoinMembers(m, k) ==
      Member(k[0], m[k[0]]) + ("," + (Member(k[1], m[k[1]]) + ("," + (Member(k[2], m[k[2]]) + ("," + (Member(k[3], m[k[3]])
      + ("," + (Member(k[4], m[k[4]]) + ("," + (Member(k[5], m[k[5]]) + ("," + (Member(k[6], m[k[6]])
      + ("," + Member(k[7], m[k[7]]))))))))))))))
  {
    hide Member;
    forall i: nat | i < 8
      ensures JoinMembers(m, k[i..]) == Member(k[i], m[k[i]]) + if i == 7 then "" else "," + JoinMembers(m, k[i + 1..])
    {
      assert k[i..][1..] == k[i + 1..];
    }
    assert k[0..] == k;
    var last := Member(k[7], m[k[7]]);
    assert last + "" == last;
    assert JoinMembers(m, k[7..]) == last;
    assert JoinMembers(m, k[6..]) == Member(k[6], m[k[6]]) + ("," + last);
    assert JoinMembers(m, k[5..]) == Member(k[5], m[k[5]]) + ("," + JoinMembers(m, k[6..]));
    assert JoinMembers(m, k[4..]) == Member(k[4], m[k[4]]) + ("," + JoinMembers(m, k[5..]));
    assert JoinMembers(m, k[3..]) == Member(k[3], m[k[3]]) + ("," + JoinMembers(m, k[4..]));
    assert JoinMembers(m, k[2..]) == Member(k[2], m[k[2]]) + ("," + JoinMembers(m, k[3..]));
    assert JoinMembers(m, k[1..]) == Member(k[1], m[k[1]]) + ("," + JoinMembers(m, k[2..]));
  }

  lemma Flatten(a: string, b: string, c: string, d: string, e: string, f: string, g: string, h: string)
    ensures "{" + (a + ("," + (b + ("," + (c + ("," + (d + ("," + (e + ("," + (f + ("," + (g + ("," + h)))))))))))))) + "}" + "\n"
         == "{" + a + "," + b + "," + c + "," + d + "," + e + "," + f + "," + g + "," + h + "}\n"
  {
  }

  /** The printed object is that text, key after key. */
  lemma WireIsPrinted(f: Fields)
    requires BareFields(f)
    ensures Print(ObjectOf(f)) == Wire(f)
  {
    hide Ascii, Member, Members, ObjectOf, TextKey, NumberKey, BareText, KeysOf, Ascending;
    var (m, k, s) := (ObjectOf(f), Keys(), Spelled());
    ValuesOf(f);
    KeysAscend();
    forall i: nat | i < 8
      ensures Keys()[i] == Ascii(Spelled()[i]) && BareText(Spelled()[i])
    {
      KeysAreBare(i);
    }
    MembersInOrder(m, k);
    KeysAreIn(m, k);
    JoinEight(m, k);
    TextMember(s[0], f.archive);
    TextMember(s[1], f.authorization);
    NumberMember(s[2], f.cost);
    TextMember(s[3], f.operation);
    TextMember(s[4], f.purpose);
    TextMember(s[5], f.run);
    NumberMember(s[6], f.schema);
    NumberMember(s[7], f.season);
    Flatten(TextKey(s[0], f.archive), TextKey(s[1], f.authorization), NumberKey(s[2], f.cost), TextKey(s[3], f.operation),
            TextKey(s[4], f.purpose), TextKey(s[5], f.run), NumberKey(s[6], f.schema), NumberKey(s[7], f.season));
  }

  lemma KeysAreIn(m: Object, k: seq<Text>)
    requires KeysOf(m, k)
    ensures forall t :: t in k ==> t in m
  {
  }

  // --------------------------------------------------------------- the fields

  predicate HexText(s: string) { forall i :: 0 <= i < |s| ==> '0' <= s[i] <= '9' || 'a' <= s[i] <= 'f' }

  /** `8-4-4-4-12` hexadecimal digits, version 4 and its variant. */
  predicate Version4(s: string) {
    && |s| == 36 && s[8] == '-' && s[13] == '-' && s[18] == '-' && s[23] == '-'
    && (forall i :: 0 <= i < 36 && i != 8 && i != 13 && i != 18 && i != 23 ==> '0' <= s[i] <= '9' || 'a' <= s[i] <= 'f')
    && s[14] == '4' && s[19] in {'8', '9', 'a', 'b'}
  }

  /** What every field has to be. */
  predicate Right(f: Fields) {
    && f.schema == 1 && f.season == 2
    && f.operation == "observe_final_review_part_one" && f.purpose == "speaker_review"
    && 0 < f.cost <= 5_000_000
    && |f.archive| == 64 && HexText(f.archive)
    && |f.run| == 31 && f.run[..15] == "speaker-review-" && HexText(f.run[15..])
    && Version4(f.authorization)
  }

  lemma AsciiInjective(a: string, b: string)
    ensures Ascii(a) == Ascii(b) <==> a == b
  {
    if Ascii(a) == Ascii(b) {
      assert |Ascii(a)| == |a| && |Ascii(b)| == |b|;
      forall i | 0 <= i < |a| ensures a[i] == b[i] {
        assert Ascii(a)[i] == a[i] as int && Ascii(b)[i] == b[i] as int;
      }
    }
  }

  lemma HexExactly(s: string)
    ensures IsHex(Ascii(s)) <==> HexText(s)
  {
    if IsHex(Ascii(s)) {
      forall i | 0 <= i < |s| ensures '0' <= s[i] <= '9' || 'a' <= s[i] <= 'f' {
        assert Ascii(s)[i] in Ascii(s);
      }
    }
  }

  lemma AsciiCut(s: string, lo: nat, hi: nat)
    requires lo <= hi <= |s|
    ensures Ascii(s)[lo..hi] == Ascii(s[lo..hi]) && |Ascii(s)| == |s|
  {
  }

  lemma RunExactly(s: string)
    ensures IsRunId(Ascii(s)) <==> |s| == 31 && s[..15] == "speaker-review-" && HexText(s[15..])
  {
    hide IsHex, HexText;
    if |s| == 31 {
      AsciiCut(s, 0, 15);
      AsciiCut(s, 15, 31);
      assert Ascii(s)[..15] == Ascii(s)[0..15] && s[..15] == s[0..15] && Ascii(s)[15..] == Ascii(s)[15..31] && s[15..] == s[15..31];
      HexExactly(s[15..]);
      AsciiInjective(s[..15], "speaker-review-");
    }
  }

  lemma VersionExactly(s: string)
    ensures IsUuid4(Ascii(s)) <==> Version4(s)
  {
    if |s| == 36 {
      var t := Ascii(s);
      var digits := t[..8] + t[9..13] + t[14..18] + t[19..23] + t[24..];
      var spelled := s[..8] + s[9..13] + s[14..18] + s[19..23] + s[24..];
      assert Ascii(spelled) == digits;
      HexExactly(spelled);
      PlacesOf(s, spelled);
      hide IsHex, HexText;
    }
  }

  lemma PlacesOf(s: string, spelled: string)
    requires |s| == 36 && spelled == s[..8] + s[9..13] + s[14..18] + s[19..23] + s[24..]
    ensures HexText(spelled) <==>
      forall i :: 0 <= i < 36 && i != 8 && i != 13 && i != 18 && i != 23 ==> '0' <= s[i] <= '9' || 'a' <= s[i] <= 'f'
  {
    if HexText(spelled) {
      forall i | 0 <= i < 36 && i != 8 && i != 13 && i != 18 && i != 23
        ensures '0' <= s[i] <= '9' || 'a' <= s[i] <= 'f'
      {
        var j := if i < 8 then i else if i < 13 then i - 1 else if i < 18 then i - 2 else if i < 23 then i - 3 else i - 4;
        assert spelled[j] == s[i];
      }
    }
  }

  lemma FieldsExactly(f: Fields)
    ensures FieldsValid(ObjectOf(f)) <==> Right(f)
  {
    hide Ascii, IsHex, HexText, IsRunId, IsUuid4, Version4, ObjectOf;
    ValuesOf(f);
    AsciiInjective(f.operation, "observe_final_review_part_one");
    AsciiInjective(f.purpose, "speaker_review");
    HexExactly(f.archive);
    AsciiCut(f.archive, 0, 0);
    RunExactly(f.run);
    VersionExactly(f.authorization);
    var m := ObjectOf(f);
    assert Field(m, "schema_version") == Some(Int(f.schema)) && Field(m, "season_number") == Some(Int(f.season));
    assert Field(m, "operation") == Some(Str(Ascii(f.operation))) && Field(m, "purpose") == Some(Str(Ascii(f.purpose)));
    assert Field(m, "archive_sha256") == Some(Str(Ascii(f.archive))) && Field(m, "run_id") == Some(Str(Ascii(f.run)));
    assert Field(m, "authorization_id") == Some(Str(Ascii(f.authorization)));
    assert Field(m, "maximum_authorized_cost_microusd") == Some(Int(f.cost));
  }

  lemma BareIsPlain(f: Fields)
    requires BareFields(f)
    ensures PlainObject(ObjectOf(f))
  {
    hide Ascii, Plain, BareText, ObjectOf;
    ValuesOf(f);
    BarePrints(f.archive);
    BarePrints(f.authorization);
    BarePrints(f.operation);
    BarePrints(f.purpose);
    BarePrints(f.run);
    forall i: nat | i < 8
      ensures Plain(Keys()[i])
    {
      KeysAreBare(i);
      BarePrints(Spelled()[i]);
    }
  }

  /** A text with the eight keys in order and nothing else around the values is
      a request exactly when every value is right; changing any one of them to
      anything else has it refused. */
  lemma RequestWireExactly(f: Fields)
    requires BareFields(f)
    ensures ParseRequest(Wire(f)).Some? <==> Right(f)
    ensures Right(f) ==> ParseRequest(Wire(f)) == Some(ObjectOf(f))
  {
    hide FieldsValid, ObjectOf, Wire, Right, ParseRequest, Print, PlainObject, BareFields;
    WireIsPrinted(f);
    FieldsExactly(f);
    RequestExactly(Wire(f), ObjectOf(f));
    if ParseRequest(Wire(f)).Some? {
      var m := ParseRequest(Wire(f)).value;
      RequestExactly(Wire(f), m);
      ValidRequestsFit(m);
      BareIsPlain(f);
      PrintInjective(m, ObjectOf(f));
    }
  }

  function Digits16(): string { "0123456789abcdef" }

  /** One request, in full. */
  function Example(): Fields {
    Fields(Digits16() + Digits16() + Digits16() + Digits16(), "01234567-89ab-4cde-8f01-23456789abcd", 5_000_000,
           "observe_final_review_part_one", "speaker_review", "speaker-review-" + Digits16(), 1, 2)
  }

  lemma ExampleIsAccepted()
    ensures BareFields(Example()) && ParseRequest(Wire(Example())).Some?
  {
    hide BareText, HexText, Version4, Wire, ParseRequest, Digits16;
    ExampleDigits();
    ExampleVersion();
    ExampleRun();
    ExampleWords();
    RequestWireExactly(Example());
  }

  lemma ExampleDigits()
    ensures var h := Digits16(); |h| == 16 && HexText(h) && HexText(h + h + h + h) && BareText(h + h + h + h)
  {
    var h := Digits16();
    assert HexText(h);
    hide Digits16;
    HexJoins(h, h);
    HexJoins(h + h, h);
    HexJoins(h + h + h, h);
  }

  lemma HexJoins(a: string, b: string)
    requires HexText(a) && HexText(b)
    ensures HexText(a + b) && BareText(a + b)
  {
  }

  lemma ExampleVersion()
    ensures Version4("01234567-89ab-4cde-8f01-23456789abcd") && BareText("01234567-89ab-4cde-8f01-23456789abcd")
  {
  }

  lemma ExampleRun()
    ensures var r := "speaker-review-" + Digits16();
      |r| == 31 && r[..15] == "speaker-review-" && HexText(r[15..]) && BareText(r)
  {
    ExampleDigits();
    var (p, h) := ("speaker-review-", Digits16());
    assert (p + h)[15..] == h && (p + h)[..15] == p;
    assert BareText(p);
    hide Digits16;
    assert forall i :: 0 <= i < 31 ==> (p + h)[i] == if i < 15 then p[i] else h[i - 15];
  }

  lemma ExampleWords()
    ensures BareText("observe_final_review_part_one") && BareText("speaker_review")
  {
  }
}
