/** The deterministic classifier answers (e2e/authoring-judgments.ts:1-50), with exact reals. */
module Judgment {
  import opened Text

  datatype Question =
    | NoulQuestion
    | ChoiceQuestion(criteria: seq<(string, bool)>)
    | OtherQuestion

  /** A passage whose source may not be a text. */
  datatype Passage = Passage(index: nat, source: Option<string>)

  datatype Request = Request(
    questions: seq<(string, Question)>, reply: Option<string>, passages: Option<seq<Passage>>)

  datatype Answer =
    | Noul(noul: real)
    | Choice(choice: string, confidence: real, probabilities: map<string, real>)

  const SEQUENCE_PASSAGE := "The browser sends a request to the server, which returns a response."
  const INPUT_REQUESTS: set<string> := {"Which option should we use?", "Tell me which option to use."}

  /** The keys of one object are distinct. */
  predicate DistinctKeys<V>(entries: seq<(string, V)>) {
    forall i, j :: 0 <= i < j < |entries| ==> entries[i].0 != entries[j].0
  }

  ghost predicate WellFormed(r: Request) {
    DistinctKeys(r.questions)
    && forall i :: 0 <= i < |r.questions| && r.questions[i].1.ChoiceQuestion? ==> DistinctKeys(r.questions[i].1.criteria)
  }

  predicate Includes(s: string, part: string) {
    exists i :: 0 <= i <= |s| && part <= s[i..]
  }

  /** `[pht]\d+`. */
  predicate IsPassageId(id: string) {
    |id| > 1 && (id[0] == 'p' || id[0] == 'h' || id[0] == 't') && AllDigits(id[1..])
  }

  function IndexOf(id: string): nat
    requires IsPassageId(id)
  {
    Value(id[1..])
  }

  function FindPassage(passages: seq<Passage>, index: nat): Option<Passage> {
    if passages == [] then None
    else if passages[0].index == index then Some(passages[0])
    else FindPassage(passages[1..], index)
  }

  /** The source a question is about, when its passage exists and holds text. */
  function SourceOf(passages: seq<Passage>, id: string): Option<string>
    requires IsPassageId(id)
  {
    match FindPassage(passages, IndexOf(id))
    case None => None
    case Some(p) => p.source
  }

  predicate HasSequence(criteria: seq<(string, bool)>) {
    exists i :: 0 <= i < |criteria| && criteria[i] == ("sequence", true)
  }

  /** Whether a question in the passage branch can be answered at all. */
  predicate Answerable(passages: seq<Passage>, id: string, q: Question)
    requires IsPassageId(id)
  {
    SourceOf(passages, id).Some?
    && match q
       case NoulQuestion => true
       case ChoiceQuestion(criteria) => Includes(SourceOf(passages, id).value, SEQUENCE_PASSAGE) && HasSequence(criteria)
       case OtherQuestion => false
  }

  /** Whether the answer is the one of a passage that calls for a sequence. */
  predicate SaysSequence(a: Answer) {
    match a
    case Noul(noul) => noul == 0.97
    case Choice(choice, _, _) => choice == "sequence"
  }

  predicate SaysOther(a: Answer) {
    a == Noul(0.03)
  }

  function Share(key: string, keys: nat): real
    requires key == "sequence" || keys > 1
  {
    if key == "sequence" then 0.98 else 0.02 / (keys - 1) as real
  }

  function Sum(criteria: seq<(string, bool)>, probabilities: map<string, real>): real
    requires forall i :: 0 <= i < |criteria| ==> criteria[i].0 in probabilities
  {
    if criteria == [] then 0.0
    else
      assert forall i :: 0 <= i < |criteria[1..]| ==> criteria[1..][i] == criteria[i + 1];
      probabilities[criteria[0].0] + Sum(criteria[1..], probabilities)
  }

  /** A distribution over the criteria with `sequence` strictly ahead. */
  ghost predicate IsDistribution(criteria: seq<(string, bool)>, a: Answer) {
    && a.Choice? && a.choice == "sequence" && a.confidence == 0.98
    && (forall k :: k in a.probabilities <==> exists i :: 0 <= i < |criteria| && criteria[i].0 == k)
    && (|criteria| >= 2 ==> Sum(criteria, a.probabilities) == 1.0)
    && "sequence" in a.probabilities
    && forall k :: k in a.probabilities && k != "sequence" ==> 0.0 < a.probabilities[k] < a.probabilities["sequence"]
  }

  lemma {:induction false} RestHasKey(criteria: seq<(string, bool)>)
    requires DistinctKeys(criteria) && criteria != []
    ensures (exists i :: 0 <= i < |criteria| && criteria[i].0 == "sequence")
            <==> criteria[0].0 == "sequence" || exists i :: 0 <= i < |criteria[1..]| && criteria[1..][i].0 == "sequence"
    ensures criteria[0].0 == "sequence" ==> forall i :: 0 <= i < |criteria[1..]| ==> criteria[1..][i].0 != "sequence"
  {
    assert forall i :: 0 <= i < |criteria[1..]| ==> criteria[1..][i] == criteria[i + 1];
    if exists i :: 0 < i < |criteria| && criteria[i].0 == "sequence" {
      var i :| 0 < i < |criteria| && criteria[i].0 == "sequence";
      assert criteria[1..][i - 1].0 == "sequence";
    }
  }

  lemma {:induction false} OneShareMore(n: nat, share: real)
    ensures (n + 1) as real * share == share + n as real * share
  {}

  lemma {:induction false} SumOfShares(criteria: seq<(string, bool)>, probabilities: map<string, real>, keys: nat)
    requires DistinctKeys(criteria) && keys > 1
    requires forall i :: 0 <= i < |criteria| ==> criteria[i].0 in probabilities && probabilities[criteria[i].0] == Share(criteria[i].0, keys)
    ensures Sum(criteria, probabilities)
            == if exists i :: 0 <= i < |criteria| && criteria[i].0 == "sequence"
               then 0.98 + (|criteria| - 1) as real * (0.02 / (keys - 1) as real)
               else |criteria| as real * (0.02 / (keys - 1) as real)
  {
    if criteria != [] {
      var rest := criteria[1..];
      assert forall i :: 0 <= i < |rest| ==> rest[i] == criteria[i + 1];
      SumOfShares(rest, probabilities, keys);
      RestHasKey(criteria);
      OneShareMore(|rest|, 0.02 / (keys - 1) as real);
    }
  }

  /** The probabilities of the first keys of a choice. */
  ghost function Shares(criteria: seq<(string, bool)>, keys: nat): map<string, real>
    requires keys > 1 || forall i :: 0 <= i < |criteria| ==> criteria[i].0 == "sequence"
  {
    if criteria == [] then map[]
    else
      var front, key := criteria[..|criteria| - 1], criteria[|criteria| - 1].0;
      Shares(front, keys)[key := Share(key, keys)]
  }

  lemma {:induction false} SharesPerKey(criteria: seq<(string, bool)>, keys: nat)
    requires keys > 1 || forall i :: 0 <= i < |criteria| ==> criteria[i].0 == "sequence"
    ensures forall k :: k in Shares(criteria, keys) <==> exists i :: 0 <= i < |criteria| && criteria[i].0 == k
    ensures forall k :: k in Shares(criteria, keys) && (k == "sequence" || keys > 1) ==> Shares(criteria, keys)[k] == Share(k, keys)
  {
    if criteria != [] {
      var front := criteria[..|criteria| - 1];
      SharesPerKey(front, keys);
      assert forall i :: 0 <= i < |front| ==> front[i] == criteria[i];
    }
  }

  lemma {:induction false} SharesSumToOne(criteria: seq<(string, bool)>)
    requires DistinctKeys(criteria) && HasSequence(criteria) && |criteria| > 1
    ensures forall i :: 0 <= i < |criteria| ==> criteria[i].0 in Shares(criteria, |criteria|)
    ensures Sum(criteria, Shares(criteria, |criteria|)) == 1.0
  {
    SharesPerKey(criteria, |criteria|);
    SumIsWhole(criteria, Shares(criteria, |criteria|));
  }

  lemma {:induction false} SumIsWhole(criteria: seq<(string, bool)>, probabilities: map<string, real>)
    requires DistinctKeys(criteria) && HasSequence(criteria) && |criteria| > 1
    requires forall i :: 0 <= i < |criteria| ==> criteria[i].0 in probabilities && probabilities[criteria[i].0] == Share(criteria[i].0, |criteria|)
    ensures Sum(criteria, probabilities) == 1.0
  {
    SumOfShares(criteria, probabilities, |criteria|);
    ShareOfRest(|criteria|);
  }

  lemma {:induction false} SharesAreDistribution(criteria: seq<(string, bool)>)
    requires DistinctKeys(criteria) && HasSequence(criteria)
    requires |criteria| > 1 || forall i :: 0 <= i < |criteria| ==> criteria[i].0 == "sequence"
    ensures IsDistribution(criteria, Choice("sequence", 0.98, Shares(criteria, |criteria|)))
  {
    var probabilities := Shares(criteria, |criteria|);
    SharesPerKey(criteria, |criteria|);
    var at :| 0 <= at < |criteria| && criteria[at] == ("sequence", true);
    assert "sequence" in probabilities && probabilities["sequence"] == 0.98;
    if |criteria| > 1 {
      SharesSumToOne(criteria);
      SharesAreSmall(|criteria|);
      assert forall k :: k in probabilities && k != "sequence" ==> probabilities[k] == 0.02 / (|criteria| - 1) as real;
    }
  }

  lemma {:induction false} ShareOfRest(keys: nat)
    requires keys > 1
    ensures 0.98 + (keys - 1) as real * (0.02 / (keys - 1) as real) == 1.0
  {
  }

  /** The probabilities of one choice, key by key. */
  method Probabilities(criteria: seq<(string, bool)>) returns (probabilities: map<string, real>)
    requires DistinctKeys(criteria) && HasSequence(criteria)
    ensures IsDistribution(criteria, Choice("sequence", 0.98, probabilities))
  {
    probabilities := map[];
    var at :| 0 <= at < |criteria| && criteria[at] == ("sequence", true);
    assert |criteria| == 1 ==> at == 0;
    for n := 0 to |criteria|
      invariant probabilities == Shares(criteria[..n], |criteria|)
    {
      assert criteria[..n + 1][..n] == criteria[..n];
      probabilities := probabilities[criteria[n].0 := Share(criteria[n].0, |criteria|)];
    }
    assert criteria[..|criteria|] == criteria;
    SharesAreDistribution(criteria);
  }

  lemma {:induction false} SharesAreSmall(keys: nat)
    requires keys > 1
    ensures 0.0 < 0.02 / (keys - 1) as real < 0.98
  {
  }

  /** What an answer says about its question: the verdict of the passage, in the form the question asks for. */
  ghost predicate Fits(passages: seq<Passage>, id: string, q: Question, a: Answer)
    requires IsPassageId(id)
  {
    && SourceOf(passages, id).Some?
    && (if Includes(SourceOf(passages, id).value, SEQUENCE_PASSAGE) then SaysSequence(a) else SaysOther(a))
    && (q.NoulQuestion? ==> a.Noul?)
    && (q.ChoiceQuestion? ==> IsDistribution(q.criteria, a))
  }

  /** The first questions can be answered, and these are their answers. */
  ghost predicate AnswersUpTo(passages: seq<Passage>, questions: seq<(string, Question)>, n: nat, answers: map<string, Answer>)
    requires forall i :: 0 <= i < |questions| ==> IsPassageId(questions[i].0)
  {
    n <= |questions|
    && (forall i :: 0 <= i < n ==>
          Answerable(passages, questions[i].0, questions[i].1)
          && questions[i].0 in answers && Fits(passages, questions[i].0, questions[i].1, answers[questions[i].0]))
    && forall id :: id in answers ==> exists i :: 0 <= i < n && questions[i].0 == id
  }

  lemma {:induction false} OneMoreAnswer(
      passages: seq<Passage>, questions: seq<(string, Question)>, n: nat, answers: map<string, Answer>, answer: Answer)
    requires DistinctKeys(questions) && forall i :: 0 <= i < |questions| ==> IsPassageId(questions[i].0)
    requires n < |questions| && AnswersUpTo(passages, questions, n, answers)
    requires Answerable(passages, questions[n].0, questions[n].1) && Fits(passages, questions[n].0, questions[n].1, answer)
    ensures AnswersUpTo(passages, questions, n + 1, answers[questions[n].0 := answer])
  {
    var next := answers[questions[n].0 := answer];
    forall id | id in next ensures exists i :: 0 <= i < n + 1 && questions[i].0 == id {
      if id in answers {
        var i :| 0 <= i < n && questions[i].0 == id;
      }
    }
  }

  ghost predicate InInputBranch(r: Request) {
    |r.questions| == 1 && r.questions[0] == ("input", NoulQuestion) && r.reply.Some?
  }

  ghost predicate InPassageBranch(r: Request) {
    !InInputBranch(r) && r.questions != [] && (forall i :: 0 <= i < |r.questions| ==> IsPassageId(r.questions[i].0)) && r.passages.Some?
  }

  /** Every question has an answer that fits it, and nothing else is answered. */
  ghost predicate AnswersPassages(r: Request, answers: map<string, Answer>)
    requires InPassageBranch(r)
  {
    (forall i :: 0 <= i < |r.questions| ==>
       r.questions[i].0 in answers && Fits(r.passages.value, r.questions[i].0, r.questions[i].1, answers[r.questions[i].0]))
    && forall id :: id in answers ==> exists i :: 0 <= i < |r.questions| && r.questions[i].0 == id
  }

  /** All questions are answered, or there is no result; which of the two is decided by the request. */
  method AuthoringJudgment(r: Request) returns (result: Option<map<string, Answer>>)
    requires WellFormed(r)
    ensures InInputBranch(r) ==>
              result == Some(map["input" := Noul(if r.reply.value in INPUT_REQUESTS then 0.97 else 0.03)])
    ensures InPassageBranch(r) ==>
              (result.Some? <==> forall i :: 0 <= i < |r.questions| ==> Answerable(r.passages.value, r.questions[i].0, r.questions[i].1))
    ensures InPassageBranch(r) && result.Some? ==> AnswersPassages(r, result.value)
    ensures !InInputBranch(r) && !InPassageBranch(r) ==> result == None
  {
    if |r.questions| == 1 && r.questions[0] == ("input", NoulQuestion) && r.reply.Some? {
      return Some(map["input" := Noul(if r.reply.value in INPUT_REQUESTS then 0.97 else 0.03)]);
    }
    if r.questions == [] || r.passages.None? || exists i :: 0 <= i < |r.questions| && !IsPassageId(r.questions[i].0) {
      return None;
    }
    var passages := r.passages.value;
    var answers: map<string, Answer> := map[];
    for n := 0 to |r.questions|
      invariant AnswersUpTo(passages, r.questions, n, answers)
    {
      var (id, question) := r.questions[n];
      var passage := FindPassage(passages, IndexOf(id));
      if passage.None? || passage.value.source.None? {
        assert !Answerable(passages, r.questions[n].0, r.questions[n].1);
        return None;
      }
      var selected := Includes(passage.value.source.value, SEQUENCE_PASSAGE);
      var answer: Answer;
      if question.NoulQuestion? {
        answer := Noul(if selected then 0.97 else 0.03);
      } else if question.ChoiceQuestion? && selected && HasSequence(question.criteria) {
        var probabilities := Probabilities(question.criteria);
        answer := Choice("sequence", 0.98, probabilities);
      } else {
        assert !Answerable(passages, r.questions[n].0, r.questions[n].1);
        return None;
      }
      OneMoreAnswer(passages, r.questions, n, answers, answer);
      answers := answers[id := answer];
    }
    result := Some(answers);
  }

  /** Questions about one passage index get one verdict, whatever letter they carry. */
  lemma {:induction false} SamePassageSameVerdict(r: Request, answers: map<string, Answer>, id: string, jd: string)
    requires InPassageBranch(r) && AnswersPassages(r, answers) && id in answers && jd in answers
    ensures IsPassageId(id) && IsPassageId(jd)
    ensures IndexOf(id) == IndexOf(jd) ==>
              (SaysSequence(answers[id]) <==> SaysSequence(answers[jd])) && (SaysOther(answers[id]) <==> SaysOther(answers[jd]))
              && (answers[id].Noul? && answers[jd].Noul? ==> answers[id] == answers[jd])
  {
    var i :| 0 <= i < |r.questions| && r.questions[i].0 == id;
    var j :| 0 <= j < |r.questions| && r.questions[j].0 == jd;
    assert Fits(r.passages.value, id, r.questions[i].1, answers[id]) && Fits(r.passages.value, jd, r.questions[j].1, answers[jd]);
  }
}
