/**
 * Who a message is for and what is left of it for the Planner (packages/protocol/address.ts:15-44): the
 * summons is found and removed by pattern, and a message that is nothing but summons leaves no text.
 */
module Addressing {
  import opened Text

  const MENTION := "@chopin"

  /** `\w`. */
  predicate IsWordChar(c: char) {
    IsDigit(c) || 'a' <= c <= 'z' || 'A' <= c <= 'Z' || c == '_'
  }

  /** `@chopin\b` in either case, at the start of a text. */
  predicate Summons(s: string) {
    |s| >= |MENTION| && Lower(s[..|MENTION|]) == MENTION && (|s| == |MENTION| || !IsWordChar(s[|MENTION|]))
  }

  /** `[^\w@]`. */
  predicate Opens(c: char) {
    !IsWordChar(c) && c != '@'
  }

  /** `addressed`. */
  predicate Addressed(s: string) {
    Summons(s) || exists i :: 0 <= i < |s| && Opens(s[i]) && Summons(s[i + 1..])
  }

  /** The first replacement of `instruction`, from a position that may be the start of the text. */
  function Strip(s: string, start: bool): string
    decreases |s|
  {
    if s == "" then ""
    else if start && Summons(s) then Strip(s[|MENTION|..], false)
    else if Opens(s[0]) && Summons(s[1..]) then [s[0]] + Strip(s[|MENTION| + 1..], false)
    else [s[0]] + Strip(s[1..], false)
  }

  /** `[^\S\n]`. */
  predicate IsGap(c: char) {
    IsBlank(c) && c != '\n'
  }

  function SkipGap(s: string): (rest: string)
    ensures |rest| <= |s|
  {
    if s != "" && IsGap(s[0]) then SkipGap(s[1..]) else s
  }

  /** The second replacement: two or more blanks in a line become one space. */
  function Collapse(s: string): string
    decreases |s|
  {
    if s == "" then ""
    else if |s| > 1 && IsGap(s[0]) && IsGap(s[1]) then " " + Collapse(SkipGap(s[2..]))
    else [s[0]] + Collapse(s[1..])
  }

  /** `instruction`. */
  function Instruction(s: string): string {
    Trim(Collapse(Strip(s, true)))
  }

  /** How many characters of a text come before the first blank. */
  function WordLength(s: string): (n: nat)
    ensures n <= |s|
    ensures forall i :: 0 <= i < n ==> !IsBlank(s[i])
    ensures n < |s| ==> IsBlank(s[n])
  {
    if s == "" || IsBlank(s[0]) then 0 else 1 + WordLength(s[1..])
  }

  /** The words of a text, split at blanks. */
  function Words(s: string): seq<string>
    decreases |s|
  {
    if s == "" then []
    else if IsBlank(s[0]) then Words(s[1..])
    else [s[..WordLength(s)]] + Words(s[WordLength(s)..])
  }

  /** Every word of the text is the summons. */
  predicate OnlySummons(s: string) {
    forall i :: 0 <= i < |Words(s)| ==> Lower(Words(s)[i]) == MENTION
  }

  // ----- nothing left

  lemma {:induction false} SkipGapKeepsBlank(s: string)
    ensures AllBlank(SkipGap(s)) <==> AllBlank(s)
  {
    if s != "" && IsGap(s[0]) {
      SkipGapKeepsBlank(s[1..]);
      assert s == [s[0]] + s[1..];
    }
  }

  lemma {:induction false} CollapseKeepsBlank(s: string)
    ensures AllBlank(Collapse(s)) <==> AllBlank(s)
    decreases |s|
  {
    if s == "" {
    } else if |s| > 1 && IsGap(s[0]) && IsGap(s[1]) {
      SkipGapKeepsBlank(s[2..]);
      CollapseKeepsBlank(SkipGap(s[2..]));
      var rest := Collapse(SkipGap(s[2..]));
      assert (" " + rest)[0] == ' ' && forall i :: 0 <= i < |rest| ==> (" " + rest)[i + 1] == rest[i];
      assert s == [s[0], s[1]] + s[2..];
    } else {
      CollapseKeepsBlank(s[1..]);
      BlankCons(s[0], Collapse(s[1..]));
      BlankCons(s[0], s[1..]);
      assert s == [s[0]] + s[1..];
    }
  }

  lemma {:induction false} BlankCons(c: char, s: string)
    ensures AllBlank([c] + s) <==> IsBlank(c) && AllBlank(s)
  {
    assert ([c] + s)[0] == c && forall i :: 0 <= i < |s| ==> ([c] + s)[i + 1] == s[i];
  }

  lemma {:induction false} BlankOpens(c: char)
    requires IsBlank(c)
    ensures Opens(c)
  {}

  /** A text of summons only, read word by word. */
  predicate Recognized(s: string)
    decreases |s|
  {
    if s == "" then true
    else if IsBlank(s[0]) then Recognized(s[1..])
    else Summons(s) && (|s| == |MENTION| || IsBlank(s[|MENTION|])) && Recognized(s[|MENTION|..])
  }

  lemma {:induction false} WordsCons(s: string)
    requires s != "" && !IsBlank(s[0])
    ensures OnlySummons(s) <==> Lower(s[..WordLength(s)]) == MENTION && OnlySummons(s[WordLength(s)..])
  {
    var w, rest := s[..WordLength(s)], Words(s[WordLength(s)..]);
    assert Words(s) == [w] + rest;
    assert Words(s)[0] == w && forall k :: 0 <= k < |rest| ==> Words(s)[k + 1] == rest[k];
  }

  lemma {:induction false} LowerLength(s: string)
    ensures |Lower(s)| == |s|
    ensures forall i :: 0 <= i < |s| ==> Lower(s)[i] == LowerChar(s[i])
  {
    if s != "" {
      LowerLength(s[1..]);
    }
  }

  /** The first word is the summons exactly when the summons stands there and a blank or the end follows. */
  lemma {:induction false} FirstWord(s: string)
    requires s != "" && !IsBlank(s[0])
    ensures Lower(s[..WordLength(s)]) == MENTION <==> Summons(s) && (|s| == |MENTION| || IsBlank(s[|MENTION|]))
    ensures Lower(s[..WordLength(s)]) == MENTION ==> WordLength(s) == |MENTION|
  {
    LowerLength(s[..WordLength(s)]);
    if Summons(s) && (|s| == |MENTION| || IsBlank(s[|MENTION|])) {
      LowerLength(s[..|MENTION|]);
      assert forall i :: 0 <= i < |MENTION| ==> LowerChar(s[i]) == MENTION[i] && !IsBlank(s[i]);
      assert WordLength(s) == |MENTION|;
    }
  }

  lemma {:induction false} RecognizedExactly(s: string)
    ensures Recognized(s) <==> OnlySummons(s)
    decreases |s|
  {
    if s == "" {
    } else if IsBlank(s[0]) {
      RecognizedExactly(s[1..]);
      assert Words(s) == Words(s[1..]);
    } else {
      WordsCons(s);
      FirstWord(s);
      if Lower(s[..WordLength(s)]) == MENTION {
        RecognizedExactly(s[|MENTION|..]);
      }
    }
  }

  lemma {:induction false} StrippedIsBlank(s: string, start: bool)
    ensures AllBlank(Strip(s, start)) <==> if start || s == "" || IsBlank(s[0]) then Recognized(s) else false
    decreases |s|
  {
    if s == "" {
    } else if start && Summons(s) {
      SummonsIsNoBlank(s);
      StrippedIsBlank(s[|MENTION|..], false);
    } else if Opens(s[0]) && Summons(s[1..]) {
      StrippedIsBlank(s[|MENTION| + 1..], false);
      BlankCons(s[0], Strip(s[|MENTION| + 1..], false));
      SummonsIsNoBlank(s[1..]);
      assert s[1..][|MENTION|..] == s[|MENTION| + 1..];
    } else {
      StrippedIsBlank(s[1..], false);
      BlankCons(s[0], Strip(s[1..], false));
      if IsBlank(s[0]) {
        BlankOpens(s[0]);
      }
    }
  }

  lemma {:induction false} SummonsIsNoBlank(s: string)
    requires Summons(s)
    ensures !IsBlank(s[0])
  {
    LowerLength(s[..|MENTION|]);
    assert LowerChar(s[0]) == '@';
  }

  /** What the Planner is given is empty if and only if every word of the message is the summons. */
  lemma {:induction false} InstructionIsEmpty(s: string)
    ensures Instruction(s) == "" <==> OnlySummons(s)
  {
    TrimIsEmpty(Collapse(Strip(s, true)));
    CollapseKeepsBlank(Strip(s, true));
    StrippedIsBlank(s, true);
    RecognizedExactly(s);
  }

  // ----- the summons alone

  lemma {:induction false} SummonsIsLower()
    ensures Lower(MENTION) == MENTION && MENTION[..|MENTION|] == MENTION
  {
    LowerLength(MENTION);
  }

  lemma {:induction false} SummonsIsAddressed()
    ensures Addressed(MENTION) && Trim(MENTION) == MENTION
  {
    SummonsIsLower();
    assert Summons(MENTION);
    assert TrimStart(MENTION) == MENTION && TrimEnd(MENTION) == MENTION;
  }

  lemma {:induction false} SummonsIsOnlySummons()
    ensures OnlySummons(MENTION)
  {
    SummonsIsLower();
    FirstWord(MENTION);
    WordsCons(MENTION);
    assert Words(MENTION[|MENTION|..]) == [];
  }
}
