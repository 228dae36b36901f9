/** Character sequences as the fixtures print and read them: decimal numerals, padding and trimming. */
module Text {

  datatype Option<+T> = None | Some(value: T) {
    function Or(default: T): T {
      match this
      case None => default
      case Some(v) => v
    }
  }

  predicate IsDigit(c: char) {
    '0' <= c <= '9'
  }

  predicate AllDigits(s: string) {
    forall i :: 0 <= i < |s| ==> IsDigit(s[i])
  }

  function DigitValue(c: char): (d: nat)
    requires IsDigit(c)
    ensures d < 10
  {
    (c as int) - ('0' as int)
  }

  function DigitChar(d: nat): (c: char)
    requires d < 10
    ensures IsDigit(c) && DigitValue(c) == d
  {
    ((d + '0' as int) as char)
  }

  /** The decimal numeral of a natural number, without leading zeros. */
  function Decimal(n: nat): (s: string)
    ensures s != "" && AllDigits(s)
  {
    if n < 10 then [DigitChar(n)] else Decimal(n / 10) + [DigitChar(n % 10)]
  }

  /** The number a digit sequence reads as; leading zeros are allowed. */
  function Value(s: string): nat
    requires AllDigits(s)
  {
    if s == "" then 0 else 10 * Value(s[..|s| - 1]) + DigitValue(s[|s| - 1])
  }

  lemma {:induction false} ValueOfDecimal(n: nat)
    ensures Value(Decimal(n)) == n
  {
    if n >= 10 {
      var s := Decimal(n);
      assert s[..|s| - 1] == Decimal(n / 10);
      ValueOfDecimal(n / 10);
    }
  }

  lemma {:induction false} DecimalIsInjective(m: nat, n: nat)
    requires Decimal(m) == Decimal(n)
    ensures m == n
  {
    ValueOfDecimal(m);
    ValueOfDecimal(n);
  }

  lemma {:induction false} DecimalStartsNonzero(n: nat)
    requires n > 0
    ensures Decimal(n)[0] != '0'
  {
    if n >= 10 {
      DecimalStartsNonzero(n / 10);
      assert Decimal(n)[0] == Decimal(n / 10)[0];
    }
  }

  /** `padStart` with a one-character filler. */
  function PadStart(s: string, width: nat, fill: char): string {
    if |s| >= width then s else [fill] + PadStart(s, width - 1, fill)
  }

  lemma {:induction false} LeadingZeroKeepsValue(s: string)
    requires AllDigits(s)
    ensures AllDigits(['0'] + s) && Value(['0'] + s) == Value(s)
  {
    var t := ['0'] + s;
    if s == "" {
      assert t[..0] == "";
      assert Value(t) == 10 * Value(t[..0]) + DigitValue(t[0]);
    } else {
      assert t[..|t| - 1] == ['0'] + s[..|s| - 1];
      LeadingZeroKeepsValue(s[..|s| - 1]);
    }
  }

  lemma {:induction false} PaddingKeepsValue(s: string, width: nat)
    requires AllDigits(s)
    ensures AllDigits(PadStart(s, width, '0')) && Value(PadStart(s, width, '0')) == Value(s)
  {
    if |s| < width {
      PaddingKeepsValue(s, width - 1);
      LeadingZeroKeepsValue(PadStart(s, width - 1, '0'));
    }
  }

  /** Zero-padded numerals of different numbers differ, whatever the width. */
  lemma {:induction false} PaddedDecimalIsInjective(m: nat, n: nat, width: nat)
    requires PadStart(Decimal(m), width, '0') == PadStart(Decimal(n), width, '0')
    ensures m == n
  {
    PaddingKeepsValue(Decimal(m), width);
    PaddingKeepsValue(Decimal(n), width);
    ValueOfDecimal(m);
    ValueOfDecimal(n);
  }

  /** The characters `trim` and `\s` treat as blank. */
  predicate IsBlank(c: char) {
    '\t' <= c <= '\r' || c == ' ' || c == '\U{00A0}' || c == '\U{1680}' || '\U{2000}' <= c <= '\U{200A}'
    || c == '\U{2028}' || c == '\U{2029}' || c == '\U{202F}' || c == '\U{205F}' || c == '\U{3000}' || c == '\U{FEFF}'
  }

  function TrimStart(s: string): string {
    if s != "" && IsBlank(s[0]) then TrimStart(s[1..]) else s
  }

  function TrimEnd(s: string): string {
    if s != "" && IsBlank(s[|s| - 1]) then TrimEnd(s[..|s| - 1]) else s
  }

  function Trim(s: string): string {
    TrimEnd(TrimStart(s))
  }

  predicate AllBlank(s: string) {
    forall i :: 0 <= i < |s| ==> IsBlank(s[i])
  }

  lemma {:induction false} BlankMeansNoCharacter(s: string)
    ensures TrimEnd(s) == "" <==> AllBlank(s)
    ensures TrimStart(s) == "" <==> AllBlank(s)
    decreases |s|
  {
    if s != "" {
      BlankMeansNoCharacter(s[..|s| - 1]);
      BlankMeansNoCharacter(s[1..]);
      assert s == [s[0]] + s[1..] && s == s[..|s| - 1] + [s[|s| - 1]];
    }
  }

  lemma {:induction false} TrimStartIsSuffix(s: string)
    ensures |TrimStart(s)| <= |s| && TrimStart(s) == s[|s| - |TrimStart(s)|..]
    ensures TrimStart(s) != "" ==> !IsBlank(TrimStart(s)[0])
  {
    if s != "" && IsBlank(s[0]) {
      TrimStartIsSuffix(s[1..]);
    }
  }

  lemma {:induction false} TrimIsEmpty(s: string)
    ensures Trim(s) == "" <==> AllBlank(s)
  {
    BlankMeansNoCharacter(s);
    BlankMeansNoCharacter(TrimStart(s));
    TrimStartIsSuffix(s);
  }

  /** The lower case of an ASCII letter. */
  function LowerChar(c: char): char {
    if 'A' <= c <= 'Z' then ((c as int) - ('A' as int) + ('a' as int)) as char else c
  }

  function Lower(s: string): string {
    if s == "" then "" else [LowerChar(s[0])] + Lower(s[1..])
  }

  /** A text whose last piece lacks the separator splits before that piece in one way only. */
  lemma {:induction false} LastSplitIsUnique(a: string, p: string, b: string, q: string, sep: char)
    requires sep !in p && sep !in q
    requires a + [sep] + p == b + [sep] + q
    ensures a == b && p == q
  {
    var s := a + [sep] + p;
    assert s == b + [sep] + q;
    assert forall i :: |a| < i < |s| ==> s[i] == p[i - |a| - 1] && s[i] != sep;
    assert forall i :: |b| < i < |s| ==> s[i] == q[i - |b| - 1] && s[i] != sep;
    assert s[|a|] == sep && s[|b|] == sep;
    assert |a| == |b|;
    assert a == s[..|a|] && b == s[..|b|];
    assert p == s[|a| + 1..] && q == s[|b| + 1..];
  }
}
