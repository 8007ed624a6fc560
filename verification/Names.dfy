/** File names of a private review run: how they are printed, how the workers
    sort them by prefix and suffix, and how a printed name is read back. */
module Names {

  datatype Stage = Primary | Adjudication | FinalReview
  datatype Kind = Request | Output | ApiErrors | Intent | Completed

  datatype Option<+T> = None | Some(value: T)

  const RUN_STATE: string := "run-state.json"
  const CANDIDATES: string := "candidates.jsonl"
  const SOURCE_MANIFEST: string := "source-manifest.json"
  const TERMINAL_ERRORS: string := "terminal-api-errors.jsonl"
  const REVIEW_LEDGER: string := "review-ledger.json"
  const CALIBRATION: string := "calibration-sample.json"

  function PrimaryDerived(): set<string> {
    {"primary-verdicts.jsonl", "primary-parse-errors.json", "primary-decisions.jsonl"}
  }

  function AdjudicationDerived(): set<string> {
    {"adjudication-verdicts.jsonl", "adjudication-parse-errors.json", "final-decisions.jsonl"}
  }

  // ---------------------------------------------------------------- numbers

  function Digit(d: nat): char
    requires d < 10
  {
    "0123456789"[d]
  }

  predicate IsDigit(c: char) { '0' <= c <= '9' }

  predicate AllDigits(s: string) { forall i :: 0 <= i < |s| ==> IsDigit(s[i]) }

  function Decimal(n: nat): string {
    if n < 10 then [Digit(n)] else Decimal(n / 10) + [Digit(n % 10)]
  }

  function Zeros(n: nat): string { seq(n, _ => '0') }

  /** The format specification `04d`: at least four digits, more when needed. */
  function Pad4(n: nat): string {
    var d := Decimal(n);
    if |d| < 4 then Zeros(4 - |d|) + d else d
  }

  /** The number a digit string denotes. */
  function Value(s: string): nat
    requires AllDigits(s)
  {
    if s == "" then 0 else Value(s[..|s| - 1]) * 10 + (s[|s| - 1] - '0') as nat
  }

  lemma {:induction false} ValueDecimal(n: nat)
    ensures |Decimal(n)| > 0 && AllDigits(Decimal(n)) && Value(Decimal(n)) == n
  {
    if n >= 10 {
      ValueDecimal(n / 10);
      assert Decimal(n)[..|Decimal(n)| - 1] == Decimal(n / 10);
    } else {
      assert Decimal(n)[..0] == "";
    }
  }

  lemma {:induction false} ValueLeadingZeros(k: nat, s: string)
    requires AllDigits(s)
    ensures AllDigits(Zeros(k) + s) && Value(Zeros(k) + s) == Value(s)
    decreases k + |s|
  {
    var t := Zeros(k) + s;
    if s != "" {
      ValueLeadingZeros(k, s[..|s| - 1]);
      assert t[..|t| - 1] == Zeros(k) + s[..|s| - 1];
    } else if k > 0 {
      ValueLeadingZeros(k - 1, s);
      assert t[..|t| - 1] == Zeros(k - 1) + s;
    }
  }

  lemma LengthOfZeros(n: nat)
    ensures |Zeros(n)| == n
  {
  }

  lemma ValuePad4(n: nat)
    ensures |Pad4(n)| >= 4 && AllDigits(Pad4(n)) && Value(Pad4(n)) == n
  {
    hide Decimal, Value, Zeros;
    ValueDecimal(n);
    if |Decimal(n)| < 4 {
      ValueLeadingZeros(4 - |Decimal(n)|, Decimal(n));
      LengthOfZeros(4 - |Decimal(n)|);
    }
  }

  lemma DigitOf(c: char)
    requires IsDigit(c)
    ensures Digit((c - '0') as nat) == c
  {
  }

  lemma DecimalAppends(n: nat, d: nat)
    requires n > 0 && d < 10
    ensures Decimal(n * 10 + d) == Decimal(n) + [Digit(d)]
  {
    hide Digit;
    assert (n * 10 + d) / 10 == n && (n * 10 + d) % 10 == d;
  }

  lemma LastDigit(s: string)
    requires s != "" && AllDigits(s)
    ensures IsDigit(s[|s| - 1]) && AllDigits(s[..|s| - 1])
  {
  }

  lemma FrontAndLast(s: string)
    requires s != ""
    ensures s == s[..|s| - 1] + [s[|s| - 1]] && (|s| > 1 ==> s[..|s| - 1][0] == s[0])
  {
  }

  lemma ValueSteps(s: string)
    requires s != "" && AllDigits(s)
    ensures IsDigit(s[|s| - 1]) && AllDigits(s[..|s| - 1])
    ensures Value(s) == Value(s[..|s| - 1]) * 10 + (s[|s| - 1] - '0') as nat
    ensures |s| == 1 ==> Value(s[..|s| - 1]) == 0
  {
    LastDigit(s);
    hide AllDigits;
  }

  /** A digit string without a leading zero is the decimal form of its value. */
  lemma {:induction false} DecimalValue(s: string)
    requires s != "" && AllDigits(s) && s[0] != '0'
    ensures Value(s) > 0 && Decimal(Value(s)) == s
  {
    hide Digit, Decimal, Value, AllDigits;
    var h, c := s[..|s| - 1], s[|s| - 1];
    ValueSteps(s);
    FrontAndLast(s);
    DigitOf(c);
    if |s| == 1 {
      OneDigit((c - '0') as nat);
    } else {
      DecimalValue(h);
      DecimalAppends(Value(h), (c - '0') as nat);
    }
  }

  lemma OneDigit(d: nat)
    requires d < 10
    ensures Decimal(d) == [Digit(d)]
  {
  }

  lemma {:induction false} Pad4Value(s: string)
    requires |s| == 4 && AllDigits(s)
    ensures Value(s) <= 9999 && Pad4(Value(s)) == s
  {
    var (a, b, c) := (s[..1], s[..2], s[..3]);
    assert a[..|a| - 1] == "" && b[..|b| - 1] == a && c[..|c| - 1] == b && s[..|s| - 1] == c;
    assert Value(a) <= 9;
    assert Value(b) <= 99;
    assert Value(c) <= 999;
    var k := if s[0] != '0' then 0 else if s[1] != '0' then 1 else if s[2] != '0' then 2 else 3;
    var t := s[k..];
    assert s == Zeros(k) + t;
    ValueLeadingZeros(k, t);
    if t != "0" { DecimalValue(t); }
  }

  lemma {:induction false} DecimalWidth(n: nat)
    ensures n < 10 <==> |Decimal(n)| == 1
    ensures n < 100 <==> |Decimal(n)| <= 2
    ensures n < 1000 <==> |Decimal(n)| <= 3
    ensures n <= 9999 <==> |Decimal(n)| <= 4
  {
    ValueDecimal(n);
    if n >= 10 {
      ValueDecimal(n / 10);
      if n >= 100 {
        ValueDecimal(n / 100);
        assert n / 10 / 10 == n / 100;
        if n >= 1000 {
          ValueDecimal(n / 1000);
          assert n / 100 / 10 == n / 1000;
          if n >= 10000 { ValueDecimal(n / 10000); assert n / 1000 / 10 == n / 10000; }
        }
      }
    }
  }

  // ------------------------------------------------------------- part names

  function StageText(s: Stage): string {
    match s
    case Primary => "primary"
    case Adjudication => "adjudication"
    case FinalReview => "final-review"
  }

  function Suffix(k: Kind): string {
    match k
    case Request => "-requests.jsonl"
    case Output => "-output.jsonl"
    case ApiErrors => "-api-errors.jsonl"
    case Intent => "-submission-intent.json"
    case Completed => "-submission-completed.json"
  }

  predicate IsJournal(k: Kind) { k.Intent? || k.Completed? }

  function Prefix(s: Stage, k: Kind): string {
    (if IsJournal(k) then "." else "") + StageText(s) + "-part-"
  }

  function PartName(s: Stage, p: nat, k: Kind): string {
    Prefix(s, k) + Pad4(p) + Suffix(k)
  }

  /** Reads stage, part and kind back from a printed name.  It inspects only
      the characters that tell the fifteen shapes apart. */
  function Unname(name: string): Option<(Stage, nat, Kind)> {
    if |name| < 8 then None else
    var journal := name[0] == '.';
    var c := if journal then name[1] else name[0];
    var e := if journal then name[|name| - 6] else name[|name| - 8];
    var s := if c == 'p' then Primary else if c == 'a' then Adjudication else FinalReview;
    var k := if journal then (if e == 't' then Intent else Completed)
             else if e == 't' then Request else if e == 'u' then Output else ApiErrors;
    if |Prefix(s, k)| + |Suffix(k)| > |name| then None else
    var digits := name[|Prefix(s, k)|..|name| - |Suffix(k)|];
    if AllDigits(digits) then Some((s, Value(digits), k)) else None
  }

  lemma UnnamePart(s: Stage, p: nat, k: Kind)
    ensures Unname(PartName(s, p, k)) == Some((s, p, k))
  {
    hide Prefix, Suffix, Pad4, Value, AllDigits, StageText;
    ValuePad4(p);
    FirstCharacters(s, k);
    LastCharacters(k);
    ThreePieces(Prefix(s, k), Pad4(p), Suffix(k));
  }

  /** The characters the reader looks at come from prefix and suffix. */
  lemma ThreePieces(pre: string, digits: string, suf: string)
    requires |pre| >= 8 && |suf| >= 8
    ensures var name := pre + digits + suf;
      && name[0] == pre[0] && name[1] == pre[1]
      && name[|name| - 6] == suf[|suf| - 6] && name[|name| - 8] == suf[|suf| - 8]
      && name[|pre|..|name| - |suf|] == digits
  {
  }

  lemma FirstCharacters(s: Stage, k: Kind)
    ensures var p := Prefix(s, k);
      && |p| >= 8
      && (p[0] == '.' <==> IsJournal(k))
      && (if IsJournal(k) then p[1] else p[0]) == StageText(s)[0]
      && StageText(s)[0] == (match s case Primary => 'p' case Adjudication => 'a' case FinalReview => 'f')
      && '/' !in p
  {
  }

  lemma LastCharacters(k: Kind)
    ensures var q := Suffix(k);
      && |q| >= 8
      && (k.Intent? ==> q[|q| - 6] == 't') && (k.Completed? ==> q[|q| - 6] == 'd')
      && (k.Request? ==> q[|q| - 8] == 't') && (k.Output? ==> q[|q| - 8] == 'u')
      && (k.ApiErrors? ==> q[|q| - 8] == 'r')
      && q[|q| - 1] == (if IsJournal(k) then 'n' else 'l')
      && (IsJournal(k) ==> "-submission-" <= q)
      && '/' !in q
  {
  }

  /** Printing is injective across stage, part number and kind. */
  lemma PartNamesInjective(s: Stage, p: nat, k: Kind, s': Stage, p': nat, k': Kind)
    requires PartName(s, p, k) == PartName(s', p', k')
    ensures s == s' && p == p' && k == k'
  {
    UnnamePart(s, p, k);
    UnnamePart(s', p', k');
  }
}
