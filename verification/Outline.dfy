/** Recognising an invisible outline colour (e2e/focus-color.ts:1-6). */
module Outline {
  import opened Text

  /** `replaceAll(/\s/g, "")`. */
  function WithoutBlanks(s: string): string {
    if s == "" then ""
    else if IsBlank(s[0]) then WithoutBlanks(s[1..])
    else [s[0]] + WithoutBlanks(s[1..])
  }

  function Normal(color: string): string {
    WithoutBlanks(Lower(Trim(color)))
  }

  predicate AllZeros(s: string) {
    forall i :: 0 <= i < |s| ==> s[i] == '0'
  }

  function Unpercent(s: string): string {
    if s != "" && s[|s| - 1] == '%' then s[..|s| - 1] else s
  }

  /** `0(?:\.0+)?%?` against a whole text. */
  predicate IsZero(s: string) {
    var number := Unpercent(s);
    number == "0" || (|number| > 2 && number[..2] == "0." && AllZeros(number[2..]))
  }

  /** The start of the piece after the last separator, if there is one. */
  function AfterLast(s: string, separator: char): Option<nat> {
    if s == "" then None
    else if s[|s| - 1] == separator then Some(|s|)
    else AfterLast(s[..|s| - 1], separator)
  }

  /** Whether a text closed by a parenthesis has zero as its piece after the last separator, from `first` on. */
  predicate ZeroAfter(value: string, separator: char, first: nat) {
    value != "" && value[|value| - 1] == ')'
    && var inner := value[..|value| - 1];
       AfterLast(inner, separator).Some? && AfterLast(inner, separator).value <= |inner|
       && first < AfterLast(inner, separator).value && IsZero(inner[AfterLast(inner, separator).value..])
       && (first > 0 ==> ')' !in inner[first..AfterLast(inner, separator).value - 1])
  }

  predicate VisibleOutlineColor(color: string) {
    IsVisible(Normal(color))
  }

  predicate IsVisible(value: string) {
    if value == "" || value == "transparent" then false
    else if ZeroAfter(value, '/', 0) then false
    else !(("rgba(" <= value || "hsla(" <= value) && ZeroAfter(value, ',', 5))
  }

  // ----- the two patterns, declaratively

  lemma {:induction false} AfterLastIsLast(s: string, separator: char)
    ensures match AfterLast(s, separator)
            case None => separator !in s
            case Some(i) => 0 < i <= |s| && s[i - 1] == separator && separator !in s[i..]
  {
    if s != "" && s[|s| - 1] != separator {
      AfterLastIsLast(s[..|s| - 1], separator);
      var t := s[..|s| - 1];
      assert s == t + [s[|s| - 1]];
      if AfterLast(t, separator).Some? {
        var i := AfterLast(t, separator).value;
        assert s[i..] == t[i..] + [s[|s| - 1]];
      }
    }
  }

  lemma {:induction false} ZeroHasNoSeparator(z: string, separator: char)
    requires IsZero(z) && (separator == '/' || separator == ',')
    ensures separator !in z && ')' !in z && z != ""
  {
    var number := Unpercent(z);
    assert forall i :: 0 <= i < |number| ==> number[i] == '0' || number[i] == '.' by {
      if number != "0" {
        assert forall i :: 2 <= i < |number| ==> number[i] == number[2..][i - 2];
        assert number[0] == number[..2][0] && number[1] == number[..2][1];
      }
    }
    assert z == number || z == number + ['%'];
  }

  lemma {:induction false} AfterLastOf(a: string, z: string, separator: char)
    requires separator !in z
    ensures AfterLast(a + [separator] + z, separator) == Some(|a| + 1)
  {
    var s := a + [separator] + z;
    assert separator in s by {
      assert s[|a|] == separator;
    }
    AfterLastIsLast(s, separator);
    var i := AfterLast(s, separator).value;
    assert s == s[..i - 1] + [separator] + s[i..];
    LastSplitIsUnique(a, z, s[..i - 1], s[i..], separator);
  }

  lemma {:induction false} ZeroAfterOf(prefix: string, z: string, separator: char, first: nat)
    requires separator !in z
    ensures ZeroAfter(prefix + [separator] + z + [')'], separator, first)
            <==> first <= |prefix| && IsZero(z) && (first > 0 ==> ')' !in prefix[first..])
  {
    var value := prefix + [separator] + z + [')'];
    var inner := value[..|value| - 1];
    assert inner == prefix + [separator] + z;
    AfterLastOf(prefix, z, separator);
    assert inner[|prefix| + 1..] == z;
    if first <= |prefix| {
      assert inner[first..|prefix|] == prefix[first..];
    }
  }

  lemma {:induction false} ZeroAfterSplits(value: string, separator: char, first: nat) returns (prefix: string, z: string)
    requires ZeroAfter(value, separator, first)
    ensures value == prefix + [separator] + z + [')'] && separator !in z && IsZero(z) && first <= |prefix|
    ensures first > 0 ==> ')' !in prefix[first..]
  {
    var inner := value[..|value| - 1];
    AfterLastIsLast(inner, separator);
    var i := AfterLast(inner, separator).value;
    prefix, z := inner[..i - 1], inner[i..];
    assert prefix[first..] == inner[first..i - 1];
    assert inner == prefix + [separator] + z && value == inner + [')'];
  }

  lemma {:induction false} NoSeparatorNoZero(value: string, separator: char, first: nat)
    requires separator !in value
    ensures !ZeroAfter(value, separator, first)
  {
    if value != "" {
      AfterLastIsLast(value[..|value| - 1], separator);
    }
  }

  /** The first pattern: a slash, a zero and the closing parenthesis end the text. */
  lemma {:induction false} SlashPattern(value: string)
    ensures ZeroAfter(value, '/', 0) <==> exists a, z :: value == a + ['/'] + z + [')'] && IsZero(z)
  {
    if ZeroAfter(value, '/', 0) {
      var a, z := ZeroAfterSplits(value, '/', 0);
    }
    forall a: string, z: string | value == a + ['/'] + z + [')'] && IsZero(z) ensures ZeroAfter(value, '/', 0) {
      ZeroHasNoSeparator(z, '/');
      ZeroAfterOf(a, z, '/', 0);
    }
  }

  /** The second pattern, behind its five-character head: no parenthesis, then a comma and a zero. */
  lemma {:induction false} CommaPattern(head: string, value: string)
    requires |head| == 5 && head <= value
    ensures ZeroAfter(value, ',', 5)
            <==> exists a, z :: value == (head + a) + [','] + z + [')'] && ')' !in a && IsZero(z)
  {
    if ZeroAfter(value, ',', 5) {
      var prefix, z := ZeroAfterSplits(value, ',', 5);
      var a := prefix[5..];
      assert prefix == value[..|prefix|] && prefix[..5] == value[..5] == head;
      assert prefix == head + a;
    }
    forall a: string, z: string | value == (head + a) + [','] + z + [')'] && ')' !in a && IsZero(z)
      ensures ZeroAfter(value, ',', 5)
    {
      ZeroHasNoSeparator(z, ',');
      ZeroAfterOf(head + a, z, ',', 5);
      assert (head + a)[5..] == a;
    }
  }

  // ----- canonical colours

  /** A canonical alpha: a numeral without leading zeros, an optional fraction and an optional percent sign. */
  datatype Alpha = Alpha(whole: nat, fraction: string, percent: bool)

  predicate Valid(a: Alpha) {
    AllDigits(a.fraction)
  }

  function Print(a: Alpha): string {
    Decimal(a.whole) + (if a.fraction == "" then "" else "." + a.fraction) + if a.percent then "%" else ""
  }

  /** The alpha's value times 10 to the number of its fraction digits. */
  function Scaled(a: Alpha): nat
    requires Valid(a)
  {
    Value(Decimal(a.whole) + a.fraction)
  }

  lemma {:induction false} ValueIsZero(s: string)
    requires AllDigits(s)
    ensures Value(s) == 0 <==> AllZeros(s)
  {
    if s != "" {
      var t := s[..|s| - 1];
      ValueIsZero(t);
      assert s == t + [s[|s| - 1]];
    }
  }

  lemma {:induction false} ScaledIsZero(a: Alpha)
    requires Valid(a)
    ensures Scaled(a) == 0 <==> a.whole == 0 && AllZeros(a.fraction)
  {
    var whole := Decimal(a.whole);
    ValueIsZero(whole + a.fraction);
    assert forall i :: 0 <= i < |whole| ==> (whole + a.fraction)[i] == whole[i];
    assert forall i :: 0 <= i < |a.fraction| ==> (whole + a.fraction)[|whole| + i] == a.fraction[i];
    if a.whole > 0 {
      DecimalStartsNonzero(a.whole);
      assert !AllZeros(whole + a.fraction);
    } else {
      assert whole == "0";
    }
  }

  function Numeral(a: Alpha): string {
    Decimal(a.whole) + if a.fraction == "" then "" else "." + a.fraction
  }

  lemma {:induction false} NumeralEndsInDigit(a: Alpha)
    requires Valid(a)
    ensures Unpercent(Print(a)) == Numeral(a)
  {
    var whole, number := Decimal(a.whole), Numeral(a);
    var last := number[|number| - 1];
    if a.fraction == "" {
      assert number == whole && IsDigit(whole[|whole| - 1]);
    } else {
      assert number == whole + "." + a.fraction && last == a.fraction[|a.fraction| - 1];
    }
    assert Print(a) == number + if a.percent then "%" else "";
    assert a.percent ==> Print(a)[..|Print(a)| - 1] == number;
  }

  lemma {:induction false} NumeralShape(a: Alpha)
    requires Valid(a)
    ensures Numeral(a) == "0" || (|Numeral(a)| > 2 && Numeral(a)[..2] == "0." && AllZeros(Numeral(a)[2..]))
            <==> a.whole == 0 && AllZeros(a.fraction)
  {
    var whole, number := Decimal(a.whole), Numeral(a);
    if a.whole > 0 {
      DecimalStartsNonzero(a.whole);
      assert number[0] == whole[0] != '0';
      assert |number| > 2 ==> number[..2][0] == number[0];
    } else {
      assert whole == "0";
      if a.fraction != "" {
        assert number == "0." + a.fraction;
        assert number[..2] == "0." && number[2..] == a.fraction;
      }
    }
  }

  /** The zero pattern matches a canonical alpha exactly when its value is zero. */
  lemma {:induction false} ZeroPatternMeansZero(a: Alpha)
    requires Valid(a)
    ensures IsZero(Print(a)) <==> Scaled(a) == 0
  {
    ScaledIsZero(a);
    NumeralEndsInDigit(a);
    NumeralShape(a);
  }

  lemma {:induction false} PrintHasNoSeparator(a: Alpha)
    requires Valid(a)
    ensures ',' !in Print(a) && '/' !in Print(a) && ')' !in Print(a)
  {
    assert forall c :: c in Decimal(a.whole) ==> IsDigit(c);
    assert forall c :: c in a.fraction ==> IsDigit(c);
  }

  /**
   * A comma-form rgba or hsla colour, in any layout and case, is invisible exactly when its alpha is
   * zero; `channels` is whatever stands before the last comma.
   */
  lemma {:induction false} CommaFormIsExact(color: string, head: string, channels: string, alpha: Alpha)
    requires Valid(alpha) && (head == "rgba(" || head == "hsla(")
    requires '/' !in channels && ')' !in channels
    requires Normal(color) == head + channels + [','] + Print(alpha) + [')']
    ensures !VisibleOutlineColor(color) <==> Scaled(alpha) == 0
  {
    CommaValueIsExact(head, channels, alpha);
  }

  lemma {:induction false} CommaValueIsExact(head: string, channels: string, alpha: Alpha)
    requires Valid(alpha) && (head == "rgba(" || head == "hsla(")
    requires '/' !in channels && ')' !in channels
    ensures !IsVisible(head + channels + [','] + Print(alpha) + [')']) <==> Scaled(alpha) == 0
  {
    var prefix, shown := head + channels, Print(alpha);
    var value := prefix + [','] + shown + [')'];
    PrintHasNoSeparator(alpha);
    ZeroPatternMeansZero(alpha);
    HeadedValue(head, channels, shown);
    NoSeparatorNoZero(value, '/', 0);
    ZeroAfterOf(prefix, shown, ',', 5);
  }

  lemma {:induction false} HeadedValue(head: string, channels: string, shown: string)
    requires head == "rgba(" || head == "hsla("
    requires '/' !in channels && '/' !in shown
    ensures var value := head + channels + [','] + shown + [')'];
            head <= value && value != "transparent" && '/' !in value && (head + channels)[5..] == channels
  {
    var value := head + channels + [','] + shown + [')'];
    assert value[0] == head[0] && "transparent"[0] == 't';
  }

  /** A slash-form colour of any function, in any layout and case, is invisible exactly when its alpha is zero. */
  lemma {:induction false} SlashFormIsExact(color: string, front: string, alpha: Alpha)
    requires Valid(alpha)
    requires Normal(color) == front + ['/'] + Print(alpha) + [')']
    ensures !VisibleOutlineColor(color) <==> Scaled(alpha) == 0
  {
    var value := Normal(color);
    assert value[|value| - 1] == ')' && "transparent"[|"transparent"| - 1] == 't';
    PrintHasNoSeparator(alpha);
    ZeroPatternMeansZero(alpha);
    ZeroAfterOf(front, Print(alpha), '/', 0);
    NoCommaZero(front, Print(alpha));
  }

  lemma {:induction false} NoCommaZero(front: string, alpha: string)
    requires ',' !in alpha
    ensures !ZeroAfter(front + ['/'] + alpha + [')'], ',', 5)
  {
    var value := front + ['/'] + alpha + [')'];
    AfterLastIsLast(front, ',');
    match AfterLast(front, ',')
    case None =>
      NoSeparatorNoZero(value, ',', 5);
    case Some(i) =>
      var z := front[i..] + ['/'] + alpha;
      assert front == front[..i - 1] + [','] + front[i..];
      assert value == front[..i - 1] + [','] + z + [')'];
      ZeroAfterOf(front[..i - 1], z, ',', 5);
      assert z[|front| - i] == '/';
      if IsZero(z) {
        ZeroHasNoSeparator(z, '/');
      }
  }

  // ----- layout and case

  lemma {:induction false} WithoutBlanksConcat(a: string, b: string)
    ensures WithoutBlanks(a + b) == WithoutBlanks(a) + WithoutBlanks(b)
  {
    if a == "" {
      assert a + b == b;
    } else {
      assert (a + b)[0] == a[0] && (a + b)[1..] == a[1..] + b;
      WithoutBlanksConcat(a[1..], b);
    }
  }

  lemma {:induction false} LowerConcat(a: string, b: string)
    ensures Lower(a + b) == Lower(a) + Lower(b)
  {
    if a == "" {
      assert a + b == b;
    } else {
      assert (a + b)[0] == a[0] && (a + b)[1..] == a[1..] + b;
      LowerConcat(a[1..], b);
    }
  }

  lemma {:induction false} TrimStartIsBlank(s: string)
    ensures WithoutBlanks(Lower(TrimStart(s))) == WithoutBlanks(Lower(s))
  {
    if s != "" && IsBlank(s[0]) {
      TrimStartIsBlank(s[1..]);
      assert Lower(s)[0] == s[0] && Lower(s)[1..] == Lower(s[1..]);
    }
  }

  lemma {:induction false} TrimEndIsBlank(s: string)
    ensures WithoutBlanks(Lower(TrimEnd(s))) == WithoutBlanks(Lower(s))
  {
    if s != "" && IsBlank(s[|s| - 1]) {
      var t, c := s[..|s| - 1], s[|s| - 1];
      TrimEndIsBlank(t);
      assert s == t + [c];
      LowerConcat(t, [c]);
      assert [c][1..] == "" && Lower([c]) == [LowerChar(c)] + Lower([c][1..]) == [c];
      WithoutBlanksConcat(Lower(t), [c]);
      assert WithoutBlanks([c]) == WithoutBlanks([c][1..]) == "";
      assert WithoutBlanks(Lower(s)) == WithoutBlanks(Lower(t)) + "";
    }
  }

  /** Blanks anywhere and letter case never change the answer. */
  lemma {:induction false} LayoutDoesNotMatter(a: string, b: string)
    requires WithoutBlanks(Lower(a)) == WithoutBlanks(Lower(b))
    ensures VisibleOutlineColor(a) <==> VisibleOutlineColor(b)
  {
    TrimStartIsBlank(a);
    TrimEndIsBlank(TrimStart(a));
    TrimStartIsBlank(b);
    TrimEndIsBlank(TrimStart(b));
  }
}
