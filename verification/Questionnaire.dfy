/**
 * The questionnaire printer (e2e/decision-option-previews.e2e.ts:29-94): it writes the document source
 * of a list of decisions beside the structured state that must describe the same decisions.
 * `Parse` is a reference parser of the emitted grammar.
 */
module Questionnaire {
  import opened Sequences
  import opened Text

  datatype Choice = Choice(id: string, title: string, description: string, preview: Option<string>)

  datatype Criterion = Criterion(id: string, title: string)

  datatype Item = Item(
    widget: string, question: string, header: string, prompt: string,
    options: seq<Choice>, criteria: Option<seq<Criterion>>)

  datatype Definition = Definition(
    id: string, header: string, question: string, multiple: bool,
    options: seq<Choice>, criteria: Option<seq<Criterion>>)

  datatype Question = Question(id: string, definition: Definition, status: string, origin: string)

  datatype OpenQuestion<Model> = OpenQuestion(
    definition: Definition, id: string, model: Model, revision: nat, widget: string)

  // ----- escaping

  /** `replaceAll` with a one-character pattern. */
  function ReplaceAll(s: string, pattern: char, replacement: string): string {
    if s == "" then ""
    else (if s[0] == pattern then replacement else [s[0]]) + ReplaceAll(s[1..], pattern, replacement)
  }

  /** An attribute value as the document source writes it: two passes over the text. */
  function Attribute(value: string): string {
    ReplaceAll(ReplaceAll(value, '&', "&amp;"), '"', "&quot;")
  }

  /** What a reader makes of an attribute value. */
  function Decode(s: string): (d: string)
    ensures |d| <= |s|
  {
    if s == "" then ""
    else if "&amp;" <= s then "&" + Decode(s[5..])
    else if "&quot;" <= s then "\"" + Decode(s[6..])
    else [s[0]] + Decode(s[1..])
  }

  function EscapeChar(c: char): string {
    if c == '&' then "&amp;" else if c == '"' then "&quot;" else [c]
  }

  /** The one-pass character map. */
  function Escape(value: string): string {
    if value == "" then "" else EscapeChar(value[0]) + Escape(value[1..])
  }

  lemma {:induction false} ReplaceConcat(s: string, t: string, pattern: char, replacement: string)
    ensures ReplaceAll(s + t, pattern, replacement) == ReplaceAll(s, pattern, replacement) + ReplaceAll(t, pattern, replacement)
  {
    if s == "" {
      assert s + t == t;
    } else {
      assert (s + t)[0] == s[0] && (s + t)[1..] == s[1..] + t;
      ReplaceConcat(s[1..], t, pattern, replacement);
    }
  }

  lemma {:induction false} ReplaceNothing(s: string, pattern: char, replacement: string)
    requires pattern !in s
    ensures ReplaceAll(s, pattern, replacement) == s
  {
    if s != "" {
      ReplaceNothing(s[1..], pattern, replacement);
    }
  }

  /** The two passes of `Attribute` do not interfere: they are one character map. */
  lemma {:induction false} AttributeIsOnePass(value: string)
    ensures Attribute(value) == Escape(value)
  {
    if value != "" {
      AttributeIsOnePass(value[1..]);
      var head := if value[0] == '&' then "&amp;" else [value[0]];
      ReplaceConcat(head, ReplaceAll(value[1..], '&', "&amp;"), '"', "&quot;");
      if value[0] == '"' {
        assert head[1..] == "";
        assert ReplaceAll(head, '"', "&quot;") == "&quot;" + ReplaceAll("", '"', "&quot;");
      } else {
        ReplaceNothing(head, '"', "&quot;");
      }
    }
  }

  /** An attribute value never ends its own quotes, and reading it gives the value back. */
  lemma {:induction false} AttributeRoundTrip(value: string)
    ensures '"' !in Attribute(value)
    ensures Decode(Attribute(value)) == value
  {
    AttributeIsOnePass(value);
    EscapeRoundTrip(value);
  }

  lemma {:induction false} EscapeRoundTrip(value: string)
    ensures '"' !in Escape(value)
    ensures Decode(Escape(value)) == value
  {
    if value != "" {
      EscapeRoundTrip(value[1..]);
      var head, rest := EscapeChar(value[0]), Escape(value[1..]);
      assert (head + rest)[|head|..] == rest;
      if value[0] == '&' {
        assert "&amp;" <= head + rest;
      } else if value[0] == '"' {
        assert "&quot;" <= head + rest && (head + rest)[1] == 'q';
      } else {
        assert (head + rest)[0] == value[0];
      }
    }
  }

  // ----- printing

  const OPTION := "<Option id=\""
  const LABEL := " label=\""
  const DESCRIPTION := " description=\""
  const PREVIEW := " preview=\""
  const CLOSE := " />"
  const CRITERION := "<Criterion id=\""
  const QUESTIONNAIRE := "<Questionnaire id=\""
  const QUESTION := ">\n<Question id=\""
  const HEADER := " header=\""
  const PROMPT := " prompt=\""
  const SINGLE := " multiple=\"false\">\n"
  const END := "</Question>\n</Questionnaire>"
  const PREFACE := "# Cache\n\nHow writes reach it.\n\n"

  /** A quoted value, from behind its opening quote. */
  function Value(v: string): string {
    v + "\""
  }

  function Given(name: string, v: string): string {
    if v == "" then "" else name + Value(Attribute(v))
  }

  function OptionLine(o: Choice): string {
    OPTION + Value(o.id) + LABEL + Value(Attribute(o.title)) + Given(DESCRIPTION, o.description)
    + Given(PREVIEW, o.preview.Or("")) + CLOSE
  }

  function CriterionLine(c: Criterion): string {
    CRITERION + Value(c.id) + LABEL + Value(c.title) + CLOSE
  }

  function OptionLines(options: seq<Choice>): (lines: seq<string>)
    ensures |lines| == |options|
  {
    if options == [] then [] else [OptionLine(options[0])] + OptionLines(options[1..])
  }

  function CriterionLines(criteria: seq<Criterion>): (lines: seq<string>)
    ensures |lines| == |criteria|
  {
    if criteria == [] then [] else [CriterionLine(criteria[0])] + CriterionLines(criteria[1..])
  }

  function Block(item: Item): string {
    QUESTIONNAIRE + Value(item.widget) + QUESTION + Value(item.question) + HEADER + Value(item.header)
    + PROMPT + Value(Attribute(item.prompt)) + SINGLE
    + Join(OptionLines(item.options) + CriterionLines(item.criteria.Or([])), "\n") + "\n" + END
  }

  function Blocks(items: seq<Item>): seq<string> {
    if items == [] then [] else [Block(items[0])] + Blocks(items[1..])
  }

  function Source(items: seq<Item>): string {
    PREFACE + Join(Blocks(items), "\n\n") + "\n"
  }

  function DefinitionOf(item: Item): Definition {
    Definition(item.question, item.header, item.prompt, false, item.options, item.criteria)
  }

  function QuestionOf(item: Item): Question {
    Question(item.widget, DefinitionOf(item), "open", "planner")
  }

  function OpenQuestionOf<Model>(item: Item, stored: Definition -> Model): OpenQuestion<Model> {
    OpenQuestion(DefinitionOf(item), item.widget, stored(DefinitionOf(item)), 0, item.widget)
  }

  // ----- reading

  function After(literal: string, s: string): Option<string> {
    if literal <= s then Some(s[|literal|..]) else None
  }

  /** The text before the next quote, and what follows that quote. */
  function Raw(s: string): Option<(string, string)> {
    if s == "" then None
    else if s[0] == '"' then Some(("", s[1..]))
    else
      match Raw(s[1..])
      case None => None
      case Some((v, rest)) => Some(([s[0]] + v, rest))
  }

  /** A named attribute: its decoded value and the rest. */
  function Read(name: string, s: string): Option<(string, string)> {
    match After(name, s)
    case None => None
    case Some(t) =>
      match Raw(t)
      case None => None
      case Some((v, rest)) => Some((Decode(v), rest))
  }

  /** An attribute that may be absent, read as empty. */
  function ReadGiven(name: string, s: string): Option<(string, string)> {
    if name <= s then Read(name, s) else Some(("", s))
  }

  function ReadOption(s: string): Option<(Choice, string)> {
    match Read(OPTION, s)
    case None => None
    case Some((id, s)) =>
      match Read(LABEL, s)
      case None => None
      case Some((title, s)) =>
        match ReadGiven(DESCRIPTION, s)
        case None => None
        case Some((description, s)) =>
          match ReadGiven(PREVIEW, s)
          case None => None
          case Some((preview, s)) =>
            match After(CLOSE + "\n", s)
            case None => None
            case Some(s) => Some((Choice(id, title, description, if preview == "" then None else Some(preview)), s))
  }

  function ReadCriterion(s: string): Option<(Criterion, string)> {
    match Read(CRITERION, s)
    case None => None
    case Some((id, s)) =>
      match Read(LABEL, s)
      case None => None
      case Some((title, s)) =>
        match After(CLOSE + "\n", s)
        case None => None
        case Some(s) => Some((Criterion(id, title), s))
  }

  function ReadOptions(s: string): Option<(seq<Choice>, string)>
    decreases |s|
  {
    if !(OPTION <= s) then Some(([], s))
    else
      match ReadOption(s)
      case None => None
      case Some((first, rest)) =>
        if |rest| >= |s| then None
        else
          match ReadOptions(rest)
          case None => None
          case Some((more, rest)) => Some(([first] + more, rest))
  }

  function ReadCriteria(s: string): Option<(seq<Criterion>, string)>
    decreases |s|
  {
    if !(CRITERION <= s) then Some(([], s))
    else
      match ReadCriterion(s)
      case None => None
      case Some((first, rest)) =>
        if |rest| >= |s| then None
        else
          match ReadCriteria(rest)
          case None => None
          case Some((more, rest)) => Some(([first] + more, rest))
  }

  /** The lines of a block and its end, read back. */
  function ReadLines(s: string): Option<(seq<Choice>, seq<Criterion>, string)> {
    match ReadOptions(s)
    case None => None
    case Some((options, s)) =>
      match ReadCriteria(s)
      case None => None
      case Some((criteria, s)) =>
        match After(if options == [] && criteria == [] then "\n" + END else END, s)
        case None => None
        case Some(s) => Some((options, criteria, s))
  }

  /** One questionnaire; absent and empty criteria read alike. */
  function ReadBlock(s: string): Option<(Item, string)> {
    match Read(QUESTIONNAIRE, s)
    case None => None
    case Some((widget, s)) =>
      match Read(QUESTION, s)
      case None => None
      case Some((question, s)) =>
        match Read(HEADER, s)
        case None => None
        case Some((header, s)) =>
          match Read(PROMPT, s)
          case None => None
          case Some((prompt, s)) =>
            match After(SINGLE, s)
            case None => None
            case Some(s) =>
              match ReadLines(s)
              case None => None
              case Some((options, criteria, s)) =>
                Some((Item(widget, question, header, prompt, options, Some(criteria)), s))
  }

  function ReadBlocks(s: string): Option<seq<Item>>
    decreases |s|
  {
    match ReadBlock(s)
    case None => None
    case Some((first, rest)) =>
      if rest == "\n" then Some([first])
      else
        match After("\n\n", rest)
        case None => None
        case Some(rest) =>
          if |rest| >= |s| then None
          else
            match ReadBlocks(rest)
            case None => None
            case Some(more) => Some([first] + more)
  }

  function Parse(source: string): Option<seq<Item>> {
    match After(PREFACE, source)
    case None => None
    case Some(s) => if s == "\n" then Some([]) else ReadBlocks(s)
  }

  // ----- what reading a printed value gives

  /** A field that survives being printed without escaping. */
  predicate Clean(f: string) {
    '"' !in f && Decode(f) == f
  }

  lemma {:induction false} CleanWithoutSpecials(f: string)
    requires '"' !in f && '&' !in f
    ensures Clean(f)
  {
    if f != "" {
      CleanWithoutSpecials(f[1..]);
      assert f[0] != '&';
    }
  }

  lemma {:induction false} AfterLiteral(literal: string, s: string)
    ensures After(literal, literal + s) == Some(s)
  {
  }

  lemma {:induction false} RawStopsAtQuote(v: string, rest: string)
    ensures '"' !in v ==> Raw(Value(v) + rest) == Some((v, rest))
    ensures '"' in v ==> Raw(Value(v) + rest).Some? && |Raw(Value(v) + rest).value.0| < |v|
  {
    var s := Value(v) + rest;
    if v == "" {
      assert s[1..] == rest;
    } else {
      assert s[0] == v[0] && s[1..] == Value(v[1..]) + rest;
      RawStopsAtQuote(v[1..], rest);
      assert v == [v[0]] + v[1..];
    }
  }

  lemma {:induction false} ReadPrinted(name: string, v: string, rest: string)
    ensures '"' !in v ==> Read(name, name + Value(v) + rest) == Some((Decode(v), rest))
    ensures Read(name, name + Value(v) + rest).Some?
    ensures Read(name, name + Value(v) + rest).value.0 == v <==> Clean(v)
  {
    assert name + Value(v) + rest == name + (Value(v) + rest);
    AfterLiteral(name, Value(v) + rest);
    RawStopsAtQuote(v, rest);
  }

  lemma {:induction false} ReadEscaped(name: string, v: string, rest: string)
    ensures Read(name, name + Value(Attribute(v)) + rest) == Some((v, rest))
  {
    AttributeRoundTrip(v);
    ReadPrinted(name, Attribute(v), rest);
  }

  lemma {:induction false} ReadGivenPrinted(name: string, v: string, rest: string)
    requires !(name <= rest)
    ensures ReadGiven(name, Given(name, v) + rest) == Some((v, rest))
  {
    if v == "" {
      assert Given(name, v) + rest == rest;
    } else {
      ReadEscaped(name, v, rest);
      assert name <= Given(name, v) + rest;
    }
  }

  // ----- options and criteria

  function NormalOption(o: Choice): Choice {
    o.(preview := if o.preview == Some("") then None else o.preview)
  }

  function NormalOptions(options: seq<Choice>): seq<Choice> {
    if options == [] then [] else [NormalOption(options[0])] + NormalOptions(options[1..])
  }

  function LabelPart(o: Choice, rest: string): string {
    LABEL + Value(Attribute(o.title)) + DescriptionPart(o, rest)
  }

  function DescriptionPart(o: Choice, rest: string): string {
    Given(DESCRIPTION, o.description) + PreviewPart(o, rest)
  }

  function PreviewPart(o: Choice, rest: string): string {
    Given(PREVIEW, o.preview.Or("")) + (CLOSE + "\n" + rest)
  }

  lemma {:induction false} OptionLineParts(o: Choice, rest: string)
    ensures OptionLine(o) + "\n" + rest == OPTION + Value(o.id) + LabelPart(o, rest)
  {
    var d, p := Given(DESCRIPTION, o.description), Given(PREVIEW, o.preview.Or(""));
    assert OptionLine(o) + "\n" + rest
        == OPTION + Value(o.id) + (LABEL + Value(Attribute(o.title)) + (d + (p + (CLOSE + "\n" + rest))));
  }

  /** Of an option line only the id is printed raw; everything else always reads back. */
  lemma {:induction false} ReadOptionLine(o: Choice, rest: string)
    ensures Clean(o.id) ==> ReadOption(OptionLine(o) + "\n" + rest) == Some((NormalOption(o), rest))
    ensures ReadOption(OptionLine(o) + "\n" + rest).Some? && ReadOption(OptionLine(o) + "\n" + rest).value.0 == NormalOption(o)
            ==> Clean(o.id)
  {
    OptionLineParts(o, rest);
    ReadPrinted(OPTION, o.id, LabelPart(o, rest));
    ReadEscaped(LABEL, o.title, DescriptionPart(o, rest));
    assert DESCRIPTION[1] == 'd' && PREVIEW[1] == 'p' && CLOSE[1] == '/';
    var close := CLOSE + "\n" + rest;
    assert close[1] == '/';
    ReadGivenPrinted(PREVIEW, o.preview.Or(""), close);
    assert !(DESCRIPTION <= PreviewPart(o, rest)) by {
      if o.preview.Or("") == "" {
        assert PreviewPart(o, rest)[1] == close[1];
      } else {
        assert PreviewPart(o, rest)[1] == PREVIEW[1];
      }
    }
    ReadGivenPrinted(DESCRIPTION, o.description, PreviewPart(o, rest));
    AfterLiteral(CLOSE + "\n", rest);
  }

  lemma {:induction false} ReadCriterionLine(c: Criterion, rest: string)
    ensures Clean(c.id) && Clean(c.title) ==> ReadCriterion(CriterionLine(c) + "\n" + rest) == Some((c, rest))
    ensures ReadCriterion(CriterionLine(c) + "\n" + rest).Some? && ReadCriterion(CriterionLine(c) + "\n" + rest).value.0 == c
            ==> Clean(c.id) && Clean(c.title)
  {
    var labelled := LABEL + Value(c.title) + (CLOSE + "\n" + rest);
    assert CriterionLine(c) + "\n" + rest == CRITERION + Value(c.id) + labelled;
    ReadPrinted(CRITERION, c.id, labelled);
    ReadPrinted(LABEL, c.title, CLOSE + "\n" + rest);
    AfterLiteral(CLOSE + "\n", rest);
  }

  /** Every line with its line break. */
  function Lines(parts: seq<string>): string {
    if parts == [] then "" else parts[0] + "\n" + Lines(parts[1..])
  }

  lemma {:induction false} JoinedLines(parts: seq<string>)
    requires parts != []
    ensures Join(parts, "\n") + "\n" == Lines(parts)
  {
    if |parts| == 1 {
      assert Lines(parts) == parts[0] + "\n" + Lines([]);
    } else {
      JoinedLines(parts[1..]);
      assert parts[0] + "\n" + Join(parts[1..], "\n") + "\n" == parts[0] + "\n" + (Join(parts[1..], "\n") + "\n");
    }
  }

  lemma {:induction false} LinesConcat(a: seq<string>, b: seq<string>)
    ensures Lines(a + b) == Lines(a) + Lines(b)
  {
    if a == [] {
      assert a + b == b;
    } else {
      assert (a + b)[0] == a[0] && (a + b)[1..] == a[1..] + b;
      LinesConcat(a[1..], b);
    }
  }

  ghost predicate CleanOptions(options: seq<Choice>) {
    forall i :: 0 <= i < |options| ==> Clean(options[i].id)
  }

  ghost predicate CleanCriteria(criteria: seq<Criterion>) {
    forall i :: 0 <= i < |criteria| ==> Clean(criteria[i].id) && Clean(criteria[i].title)
  }

  lemma {:induction false} OptionsStep(o: Choice, os: seq<Choice>, s: string, tail: string, rest: string)
    requires OPTION <= s && |tail| < |s|
    requires Clean(o.id) ==> ReadOption(s) == Some((NormalOption(o), tail))
    requires ReadOption(s).Some? && ReadOption(s).value.0 == NormalOption(o) ==> Clean(o.id)
    requires CleanOptions(os) ==> ReadOptions(tail) == Some((NormalOptions(os), rest))
    requires ReadOptions(tail).Some? && ReadOptions(tail).value.0 == NormalOptions(os) ==> CleanOptions(os)
    ensures CleanOptions([o] + os) ==> ReadOptions(s) == Some((NormalOptions([o] + os), rest))
    ensures ReadOptions(s).Some? && ReadOptions(s).value.0 == NormalOptions([o] + os) ==> CleanOptions([o] + os)
  {
    var all := [o] + os;
    assert all[1..] == os && NormalOptions(all) == [NormalOption(o)] + NormalOptions(os);
    if CleanOptions(all) {
      assert Clean(all[0].id);
      assert forall i :: 0 <= i < |os| ==> os[i] == all[i + 1];
    }
    if ReadOptions(s).Some? && ReadOptions(s).value.0 == NormalOptions(all) {
      assert ReadOption(s).value.0 == ReadOptions(s).value.0[0] == NormalOption(o);
      assert ReadOptions(tail).value.0 == ReadOptions(s).value.0[1..] == NormalOptions(os);
    }
  }

  lemma {:induction false} ReadOptionLines(options: seq<Choice>, rest: string)
    requires !(OPTION <= rest)
    ensures CleanOptions(options) ==> ReadOptions(Lines(OptionLines(options)) + rest) == Some((NormalOptions(options), rest))
    ensures ReadOptions(Lines(OptionLines(options)) + rest).Some?
            && ReadOptions(Lines(OptionLines(options)) + rest).value.0 == NormalOptions(options)
            ==> CleanOptions(options)
  {
    var s := Lines(OptionLines(options)) + rest;
    if options == [] {
      assert s == rest;
    } else {
      var o, tail := options[0], Lines(OptionLines(options[1..])) + rest;
      LinesOfOptions(options, rest);
      OptionLineParts(o, tail);
      ReadOptionLine(o, tail);
      ReadOptionLines(options[1..], rest);
      assert options == [o] + options[1..];
      OptionsStep(o, options[1..], s, tail, rest);
    }
  }

  lemma {:induction false} Assoc(p: string, q: string, r: string)
    ensures p + q + r == p + (q + r)
  {
  }

  lemma {:induction false} LinesCons(line: string, lines: seq<string>, rest: string)
    ensures Lines([line] + lines) + rest == line + "\n" + (Lines(lines) + rest)
  {
    assert ([line] + lines)[1..] == lines;
    Assoc(line + "\n", Lines(lines), rest);
  }

  lemma {:induction false} LinesOfOptions(options: seq<Choice>, rest: string)
    requires options != []
    ensures Lines(OptionLines(options)) + rest
            == OptionLine(options[0]) + "\n" + (Lines(OptionLines(options[1..])) + rest)
  {
    LinesCons(OptionLine(options[0]), OptionLines(options[1..]), rest);
  }

  lemma {:induction false} CriteriaStep(c: Criterion, cs: seq<Criterion>, s: string, tail: string, rest: string)
    requires CRITERION <= s && |tail| < |s|
    requires Clean(c.id) && Clean(c.title) ==> ReadCriterion(s) == Some((c, tail))
    requires ReadCriterion(s).Some? && ReadCriterion(s).value.0 == c ==> Clean(c.id) && Clean(c.title)
    requires CleanCriteria(cs) ==> ReadCriteria(tail) == Some((cs, rest))
    requires ReadCriteria(tail).Some? && ReadCriteria(tail).value.0 == cs ==> CleanCriteria(cs)
    ensures CleanCriteria([c] + cs) ==> ReadCriteria(s) == Some(([c] + cs, rest))
    ensures ReadCriteria(s).Some? && ReadCriteria(s).value.0 == [c] + cs ==> CleanCriteria([c] + cs)
  {
    var all := [c] + cs;
    if CleanCriteria(all) {
      assert Clean(all[0].id) && Clean(all[0].title);
      assert forall i :: 0 <= i < |cs| ==> cs[i] == all[i + 1];
    }
    if ReadCriteria(s).Some? && ReadCriteria(s).value.0 == all {
      assert ReadCriterion(s).value.0 == ReadCriteria(s).value.0[0] == all[0];
      assert ReadCriteria(tail).value.0 == ReadCriteria(s).value.0[1..] == all[1..];
    }
  }

  lemma {:induction false} ReadCriterionLines(criteria: seq<Criterion>, rest: string)
    requires !(CRITERION <= rest)
    ensures CleanCriteria(criteria) ==> ReadCriteria(Lines(CriterionLines(criteria)) + rest) == Some((criteria, rest))
    ensures ReadCriteria(Lines(CriterionLines(criteria)) + rest).Some?
            && ReadCriteria(Lines(CriterionLines(criteria)) + rest).value.0 == criteria
            ==> CleanCriteria(criteria)
  {
    var s := Lines(CriterionLines(criteria)) + rest;
    if criteria == [] {
      assert s == rest;
    } else {
      var c, tail := criteria[0], Lines(CriterionLines(criteria[1..])) + rest;
      LinesOfCriteria(criteria, rest);
      ReadCriterionLine(c, tail);
      ReadCriterionLines(criteria[1..], rest);
      assert criteria == [c] + criteria[1..];
      CriteriaStep(c, criteria[1..], s, tail, rest);
    }
  }

  lemma {:induction false} LinesOfCriteria(criteria: seq<Criterion>, rest: string)
    requires criteria != []
    ensures Lines(CriterionLines(criteria)) + rest
            == CriterionLine(criteria[0]) + "\n" + (Lines(CriterionLines(criteria[1..])) + rest)
    ensures CRITERION <= Lines(CriterionLines(criteria)) + rest
  {
    LinesCons(CriterionLine(criteria[0]), CriterionLines(criteria[1..]), rest);
    CriterionLineStarts(criteria[0], "\n" + (Lines(CriterionLines(criteria[1..])) + rest));
    Assoc(CriterionLine(criteria[0]), "\n", Lines(CriterionLines(criteria[1..])) + rest);
  }

  lemma {:induction false} CriterionLineStarts(c: Criterion, rest: string)
    ensures CRITERION <= CriterionLine(c) + rest
  {
    assert CriterionLine(c) == CRITERION + (Value(c.id) + LABEL + Value(c.title) + CLOSE);
  }

  // ----- whole questionnaires

  function Normal(item: Item): Item {
    item.(options := NormalOptions(item.options), criteria := Some(item.criteria.Or([])))
  }

  function NormalItems(items: seq<Item>): seq<Item> {
    if items == [] then [] else [Normal(items[0])] + NormalItems(items[1..])
  }

  ghost predicate CleanItem(item: Item) {
    Clean(item.widget) && Clean(item.question) && Clean(item.header)
    && CleanOptions(item.options) && CleanCriteria(item.criteria.Or([]))
  }

  ghost predicate CleanItems(items: seq<Item>) {
    forall i :: 0 <= i < |items| ==> CleanItem(items[i])
  }

  function BodyPart(item: Item, rest: string): string {
    Join(OptionLines(item.options) + CriterionLines(item.criteria.Or([])), "\n") + "\n" + END + rest
  }

  function PromptPart(item: Item, rest: string): string {
    PROMPT + Value(Attribute(item.prompt)) + (SINGLE + BodyPart(item, rest))
  }

  function HeaderPart(item: Item, rest: string): string {
    HEADER + Value(item.header) + PromptPart(item, rest)
  }

  function QuestionPart(item: Item, rest: string): string {
    QUESTION + Value(item.question) + HeaderPart(item, rest)
  }

  lemma {:induction false} BlockParts(item: Item, rest: string)
    ensures Block(item) + rest == QUESTIONNAIRE + Value(item.widget) + QuestionPart(item, rest)
  {
    var body := Join(OptionLines(item.options) + CriterionLines(item.criteria.Or([])), "\n") + "\n" + END;
    var widget, question, header, prompt := QUESTIONNAIRE + Value(item.widget), QUESTION + Value(item.question),
                                            HEADER + Value(item.header), PROMPT + Value(Attribute(item.prompt));
    NestParts(widget, question, header, prompt, SINGLE, body, rest);
    FlatBlock(item, widget, question, header, prompt, body);
  }

  lemma {:induction false} FlatBlock(item: Item, widget: string, question: string, header: string, prompt: string, body: string)
    requires widget == QUESTIONNAIRE + Value(item.widget) && question == QUESTION + Value(item.question)
    requires header == HEADER + Value(item.header) && prompt == PROMPT + Value(Attribute(item.prompt))
    requires body == Join(OptionLines(item.options) + CriterionLines(item.criteria.Or([])), "\n") + "\n" + END
    ensures Block(item) == widget + question + header + prompt + SINGLE + body
  {
    var join := Join(OptionLines(item.options) + CriterionLines(item.criteria.Or([])), "\n");
    Assoc(widget, QUESTION, Value(item.question));
    Assoc(widget + question, HEADER, Value(item.header));
    Assoc(widget + question + header, PROMPT, Value(Attribute(item.prompt)));
    var front := widget + question + header + prompt + SINGLE;
    Assoc(front, join, "\n");
    Assoc(front, join + "\n", END);
  }

  lemma {:induction false} NestParts(a: string, b: string, c: string, d: string, e: string, f: string, rest: string)
    ensures a + b + c + d + e + f + rest == a + (b + (c + (d + (e + (f + rest)))))
  {
    Assoc(a + b + c + d + e, f, rest);
    Assoc(a + b + c + d, e, f + rest);
    Assoc(a + b + c, d, e + (f + rest));
    Assoc(a + b, c, d + (e + (f + rest)));
    Assoc(a, b, c + (d + (e + (f + rest))));
  }

  lemma {:induction false} LinesOfParts(a: seq<string>, b: seq<string>, rest: string)
    ensures Join(a + b, "\n") + "\n" + END + rest
            == Lines(a) + (Lines(b) + ((if a == [] && b == [] then "\n" + END else END) + rest))
  {
    if a + b == [] {
      assert a == [] && b == [];
      assert Lines(a) == "" && Lines(b) == "" && Join(a + b, "\n") == "";
    } else {
      JoinedLines(a + b);
      LinesConcat(a, b);
      Assoc(Lines(a + b), END, rest);
      Assoc(Lines(a), Lines(b), END + rest);
    }
  }

  lemma {:induction false} EndIsNoLine(rest: string)
    ensures !(CRITERION <= END + rest) && !(OPTION <= END + rest)
    ensures !(CRITERION <= "\n" + END + rest) && !(OPTION <= "\n" + END + rest)
  {
    assert (END + rest)[1] == '/' && ("\n" + END + rest)[0] == '\n';
    assert OPTION[1] == 'O' && CRITERION[1] == 'C' && OPTION[0] == '<' && CRITERION[0] == '<';
  }

  lemma {:induction false} CriteriaAreNoOption(criteria: seq<Criterion>, rest: string)
    requires !(OPTION <= rest)
    ensures !(OPTION <= Lines(CriterionLines(criteria)) + rest)
  {
    if criteria == [] {
      assert Lines(CriterionLines(criteria)) + rest == rest;
    } else {
      LinesOfCriteria(criteria, rest);
      assert (Lines(CriterionLines(criteria)) + rest)[1] == CRITERION[1] == 'C' && OPTION[1] == 'O';
    }
  }

  /** What ends a block's lines. */
  function Ending(item: Item): string {
    if item.options == [] && item.criteria.Or([]) == [] then "\n" + END else END
  }

  /** What a block's body reads as: its options, its criteria and its end. */
  lemma {:induction false} BodyParts(item: Item, rest: string)
    ensures BodyPart(item, rest)
            == Lines(OptionLines(item.options)) + (Lines(CriterionLines(item.criteria.Or([]))) + (Ending(item) + rest))
    ensures !(OPTION <= Lines(CriterionLines(item.criteria.Or([]))) + (Ending(item) + rest))
    ensures !(CRITERION <= Ending(item) + rest)
  {
    var criteria := item.criteria.Or([]);
    LinesOfParts(OptionLines(item.options), CriterionLines(criteria), rest);
    EndIsNoLine(rest);
    CriteriaAreNoOption(criteria, Ending(item) + rest);
  }

  lemma {:induction false} NormalOptionsLength(options: seq<Choice>)
    ensures |NormalOptions(options)| == |options|
  {
    if options != [] {
      NormalOptionsLength(options[1..]);
    }
  }

  lemma {:induction false} ReadBody(item: Item, rest: string)
    ensures CleanOptions(item.options) && CleanCriteria(item.criteria.Or([]))
            ==> ReadLines(BodyPart(item, rest)) == Some((NormalOptions(item.options), item.criteria.Or([]), rest))
    ensures var read := ReadLines(BodyPart(item, rest));
            read.Some? && read.value.0 == NormalOptions(item.options) && read.value.1 == item.criteria.Or([])
            ==> CleanOptions(item.options) && CleanCriteria(item.criteria.Or([]))
  {
    var criteria := item.criteria.Or([]);
    BodyParts(item, rest);
    NormalOptionsLength(item.options);
    ReadOptionLines(item.options, Lines(CriterionLines(criteria)) + (Ending(item) + rest));
    ReadCriterionLines(criteria, Ending(item) + rest);
    AfterLiteral(Ending(item), rest);
  }

  lemma {:induction false} ReadPrintedBlock(item: Item, rest: string)
    ensures CleanItem(item) ==> ReadBlock(Block(item) + rest) == Some((Normal(item), rest))
    ensures ReadBlock(Block(item) + rest).Some? && ReadBlock(Block(item) + rest).value.0 == Normal(item) ==> CleanItem(item)
  {
    BlockParts(item, rest);
    ReadNested(item, QuestionPart(item, rest), HeaderPart(item, rest), PromptPart(item, rest), BodyPart(item, rest), rest);
  }

  lemma {:induction false} ReadNested(item: Item, question: string, header: string, prompt: string, body: string, rest: string)
    requires question == QUESTION + Value(item.question) + header
    requires header == HEADER + Value(item.header) + prompt
    requires prompt == PROMPT + Value(Attribute(item.prompt)) + (SINGLE + body)
    requires body == BodyPart(item, rest)
    ensures var s := QUESTIONNAIRE + Value(item.widget) + question;
            (CleanItem(item) ==> ReadBlock(s) == Some((Normal(item), rest)))
            && (ReadBlock(s).Some? && ReadBlock(s).value.0 == Normal(item) ==> CleanItem(item))
  {
    ReadPrinted(QUESTIONNAIRE, item.widget, question);
    ReadPrinted(QUESTION, item.question, header);
    ReadPrinted(HEADER, item.header, prompt);
    ReadEscaped(PROMPT, item.prompt, SINGLE + body);
    AfterLiteral(SINGLE, body);
    ReadBody(item, rest);
  }

  lemma {:induction false} ReadBlocksFirst(s: string)
    ensures ReadBlocks(s).Some? ==> ReadBlock(s).Some? && |ReadBlocks(s).value| > 0 && ReadBlocks(s).value[0] == ReadBlock(s).value.0
  {
  }

  lemma {:induction false} ReadBlocksMore(s: string, first: Item, tail: string)
    requires ReadBlock(s) == Some((first, "\n\n" + tail)) && tail != "" && |tail| < |s|
    ensures ReadBlocks(s) == match ReadBlocks(tail)
                             case None => None
                             case Some(more) => Some([first] + more)
  {
    AfterLiteral("\n\n", tail);
    assert |"\n\n" + tail| > |"\n"|;
  }

  lemma {:induction false} CleanItemsCons(item: Item, items: seq<Item>)
    ensures CleanItems([item] + items) <==> CleanItem(item) && CleanItems(items)
    ensures NormalItems([item] + items) == [Normal(item)] + NormalItems(items)
  {
    var all := [item] + items;
    assert all[1..] == items && all[0] == item;
    assert forall i :: 0 <= i < |items| ==> items[i] == all[i + 1];
  }

  lemma {:induction false} BlocksStep(item: Item, items: seq<Item>, s: string, tail: string)
    requires CleanItem(item) ==> ReadBlock(s) == Some((Normal(item), "\n\n" + tail))
    requires ReadBlock(s).Some? && ReadBlock(s).value.0 == Normal(item) ==> CleanItem(item)
    requires tail != "" && |tail| < |s|
    requires ReadBlocks(tail) == Some(NormalItems(items)) <==> CleanItems(items)
    ensures ReadBlocks(s) == Some(NormalItems([item] + items)) <==> CleanItems([item] + items)
  {
    CleanItemsCons(item, items);
    ReadBlocksFirst(s);
    if CleanItem(item) {
      ReadBlocksMore(s, Normal(item), tail);
      if ReadBlocks(tail).Some? {
        assert ([Normal(item)] + ReadBlocks(tail).value)[1..] == ReadBlocks(tail).value;
        assert ([Normal(item)] + NormalItems(items))[1..] == NormalItems(items);
      }
    }
  }

  lemma {:induction false} LastBlock(item: Item, s: string)
    requires ReadBlock(s) == Some((Normal(item), "\n")) <==> CleanItem(item)
    requires ReadBlock(s).Some? && ReadBlock(s).value.0 == Normal(item) ==> CleanItem(item)
    ensures ReadBlocks(s) == Some([Normal(item)]) <==> CleanItem(item)
  {
    if ReadBlocks(s) == Some([Normal(item)]) {
      assert ReadBlock(s).value.0 == ReadBlocks(s).value[0];
    }
  }

  lemma {:induction false} ReadPrintedBlocks(items: seq<Item>)
    requires items != []
    ensures ReadBlocks(Join(Blocks(items), "\n\n") + "\n") == Some(NormalItems(items)) <==> CleanItems(items)
  {
    var s, item := Join(Blocks(items), "\n\n") + "\n", items[0];
    assert items == [item] + items[1..];
    CleanItemsCons(item, items[1..]);
    BlocksLength(items[1..]);
    if |items| == 1 {
      SingleBlock(item);
      ReadPrintedBlock(item, "\n");
      LastBlock(item, s);
    } else {
      var tail := Join(Blocks(items[1..]), "\n\n") + "\n";
      JoinCons(Block(item), Blocks(items[1..]), "\n\n", "\n");
      ReadPrintedBlock(item, "\n\n" + tail);
      ReadPrintedBlocks(items[1..]);
      BlocksStep(item, items[1..], s, tail);
    }
  }

  lemma {:induction false} SingleBlock(item: Item)
    ensures Join(Blocks([item]), "\n\n") == Block(item)
    ensures NormalItems([item]) == [Normal(item)]
  {
    assert [item][1..] == [];
  }

  lemma {:induction false} JoinCons(part: string, parts: seq<string>, separator: string, end: string)
    requires parts != []
    ensures Join([part] + parts, separator) + end == part + (separator + (Join(parts, separator) + end))
  {
    assert ([part] + parts)[1..] == parts;
    Assoc(part + separator, Join(parts, separator), end);
    Assoc(part, separator, Join(parts, separator) + end);
  }

  lemma {:induction false} BlocksLength(items: seq<Item>)
    ensures |Blocks(items)| == |items|
  {
    if items != [] {
      BlocksLength(items[1..]);
    }
  }

  lemma {:induction false} NormalItemsLength(items: seq<Item>)
    ensures |NormalItems(items)| == |items|
    ensures forall i :: 0 <= i < |items| ==> NormalItems(items)[i] == Normal(items[i])
  {
    if items != [] {
      NormalItemsLength(items[1..]);
    }
  }

  /**
   * The round trip: the printed source reads back as exactly the given items, absent and empty
   * previews and criteria identified, if and only if every field printed without escaping is clean.
   */
  lemma {:induction false} SourceRoundTrip(items: seq<Item>)
    ensures Parse(Source(items)) == Some(NormalItems(items)) <==> CleanItems(items)
  {
    var s := Join(Blocks(items), "\n\n") + "\n";
    assert Source(items) == PREFACE + s;
    AfterLiteral(PREFACE, s);
    if items != [] {
      ReadPrintedBlocks(items);
      SourceIsLonger(items);
    }
  }

  lemma {:induction false} SourceIsLonger(items: seq<Item>)
    requires items != []
    ensures |Join(Blocks(items), "\n\n")| > 0
  {
    BlocksLength(items);
    var blocks := Blocks(items);
    assert |blocks[0]| >= |QUESTIONNAIRE|;
  }

  /** The state a definition stands for, up to absent and empty. */
  function NormalDefinition(d: Definition): Definition {
    d.(options := NormalOptions(d.options), criteria := Some(d.criteria.Or([])))
  }

  lemma {:induction false} BlocksConcat(xs: seq<Item>, ys: seq<Item>)
    ensures Blocks(xs + ys) == Blocks(xs) + Blocks(ys)
  {
    if xs == [] {
      assert xs + ys == ys;
    } else {
      assert (xs + ys)[0] == xs[0] && (xs + ys)[1..] == xs[1..] + ys;
      BlocksConcat(xs[1..], ys);
    }
  }

  lemma {:induction false} BlocksSnoc(items: seq<Item>, n: nat)
    requires n < |items|
    ensures Blocks(items[..n + 1]) == Blocks(items[..n]) + [Block(items[n])]
  {
    assert items[..n + 1] == items[..n] + [items[n]];
    BlocksConcat(items[..n], [items[n]]);
    assert [items[n]][1..] == [];
  }

  /** What a reader of the source learns is what the pushed records say, record by record. */
  ghost predicate Describes<Model>(source: string, questions: seq<Question>, openQuestions: seq<OpenQuestion<Model>>) {
    match Parse(source)
    case None => false
    case Some(read) =>
      |read| == |questions| == |openQuestions|
      && forall i :: 0 <= i < |read| ==>
           read[i].widget == questions[i].id == openQuestions[i].id == openQuestions[i].widget
           && DefinitionOf(read[i]) == NormalDefinition(questions[i].definition)
           && questions[i].definition == openQuestions[i].definition
  }

  /** Print the source and push the state, item by item; the source then describes the state. */
  method Seeded<Model>(items: seq<Item>, stored: Definition -> Model)
    returns (source: string, questions: seq<Question>, openQuestions: seq<OpenQuestion<Model>>)
    ensures source == Source(items)
    ensures |questions| == |items| && |openQuestions| == |items|
    ensures forall i :: 0 <= i < |items| ==> questions[i] == QuestionOf(items[i])
    ensures forall i :: 0 <= i < |items| ==> openQuestions[i] == OpenQuestionOf(items[i], stored)
    ensures CleanItems(items) ==> Describes(source, questions, openQuestions)
  {
    questions, openQuestions := [], [];
    var blocks: seq<string> := [];
    for n := 0 to |items|
      invariant |questions| == |openQuestions| == n
      invariant forall i :: 0 <= i < n ==> questions[i] == QuestionOf(items[i])
      invariant forall i :: 0 <= i < n ==> openQuestions[i] == OpenQuestionOf(items[i], stored)
      invariant blocks == Blocks(items[..n])
    {
      var item := items[n];
      var definition := DefinitionOf(item);
      questions := questions + [Question(item.widget, definition, "open", "planner")];
      openQuestions := openQuestions + [OpenQuestion(definition, item.widget, stored(definition), 0, item.widget)];
      BlocksSnoc(items, n);
      blocks := blocks + [Block(item)];
    }
    assert items[..|items|] == items;
    source := PREFACE + Join(blocks, "\n\n") + "\n";
    DescribesSource(items, stored, questions, openQuestions);
  }

  lemma {:induction false} DescribesSource<Model>(
    items: seq<Item>, stored: Definition -> Model, questions: seq<Question>, openQuestions: seq<OpenQuestion<Model>>)
    requires |questions| == |items| && |openQuestions| == |items|
    requires forall i :: 0 <= i < |items| ==> questions[i] == QuestionOf(items[i])
    requires forall i :: 0 <= i < |items| ==> openQuestions[i] == OpenQuestionOf(items[i], stored)
    ensures CleanItems(items) ==> Describes(Source(items), questions, openQuestions)
  {
    SourceRoundTrip(items);
    NormalItemsLength(items);
  }
}
