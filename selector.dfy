/** Question selection for one technology (`generate_technical_question` and the
    choice at the top of `ask_technical_questions`). */
module Selector {
  import opened Wrappers
  import opened Text
  import opened Bank

  /** The length and question-mark check a generated question must pass. */
  predicate Acceptable(question: string) {
    !(|question| < 20 || '?' !in question)
  }

  /** `generate_technical_question(tech)`: nothing without a loaded model, and
      nothing unless the generated continuation passes the check. */
  function GenerateQuestion(llmLoaded: bool, generate: string -> Option<string>, tech: string): (r: Option<string>)
    ensures !llmLoaded ==> r.None?
    ensures r.Some? ==> |r.value| >= 20 && '?' in r.value && generate(tech) == r
    ensures llmLoaded && generate(tech).Some? && |generate(tech).value| >= 20 && '?' in generate(tech).value
      ==> r == generate(tech)
  {
    if !llmLoaded then None
    else
      match generate(tech)
      case None => None
      case Some(q) => if Acceptable(q) then Some(q) else None
  }

  /** `[q for q in questions if q not in asked]` */
  function Available(questions: seq<string>, asked: seq<string>): (r: seq<string>)
    ensures forall q :: q in r <==> q in questions && q !in asked
    ensures |r| <= |questions|
  {
    if questions == [] then []
    else if questions[0] in asked then Available(questions[1..], asked)
    else [questions[0]] + Available(questions[1..], asked)
  }

  /** Where the next question about a technology comes from; `Exhausted` when the
      bank has a key for it and every one of its questions was asked already. */
  datatype Pick = Generated(question: string) | FromBank(question: string) | FromDefault(question: string) | Exhausted

  /** The branch of `ask_technical_questions` taken for `tech`, given the generated
      question (if any) and the random choice `choice` (taken modulo the list length). */
  function SelectQuestion(tb: Tables, tech: string, asked: seq<string>, llmQuestion: Option<string>, choice: nat): (p: Pick)
    requires tb.WellFormed()
    ensures p.Generated? <==> llmQuestion.Some? && llmQuestion.value != []
    ensures p.Generated? ==> p.question == llmQuestion.value
    ensures p.FromBank? ==>
      Lower(tech) in tb.techQuestions && p.question in tb.techQuestions[Lower(tech)] && p.question !in asked
    ensures p.Exhausted? <==>
      (!p.Generated? && Lower(tech) in tb.techQuestions &&
       forall q :: q in tb.techQuestions[Lower(tech)] ==> q in asked)
    ensures p.FromDefault? <==> !p.Generated? && Lower(tech) !in tb.techQuestions
    ensures p.FromDefault? ==> p.question in tb.defaultQuestions
  {
    if llmQuestion.Some? && llmQuestion.value != [] then Generated(llmQuestion.value)
    else if Lower(tech) in tb.techQuestions then ChooseUnasked(tb.techQuestions[Lower(tech)], asked, choice)
    else FromDefault(tb.defaultQuestions[choice % |tb.defaultQuestions|])
  }

  /** `random.choice` over the unasked questions of one bank entry. */
  function ChooseUnasked(questions: seq<string>, asked: seq<string>, choice: nat): (p: Pick)
    ensures p.FromBank? || p.Exhausted?
    ensures p.FromBank? ==> p.question in questions && p.question !in asked
    ensures p.Exhausted? <==> forall q :: q in questions ==> q in asked
  {
    var available := Available(questions, asked);
    if |available| > 0 then FromBank(available[choice % |available|]) else Exhausted
  }

  /** For each unasked question there is a choice that selects it. */
  lemma EveryUnaskedQuestionCanBeChosen(questions: seq<string>, asked: seq<string>, q: string)
    requires q in questions && q !in asked
    ensures exists choice: nat :: ChooseUnasked(questions, asked, choice) == FromBank(q)
  {
    var available := Available(questions, asked);
    var k :| 0 <= k < |available| && available[k] == q;
    assert k % |available| == k;
    assert ChooseUnasked(questions, asked, k) == FromBank(q);
  }

  /** The random choice reaches every unasked bank question: for each one there is a
      choice that selects it when no generated question is used. */
  lemma EveryAvailableQuestionCanBeChosen(tb: Tables, tech: string, asked: seq<string>, q: string)
    requires tb.WellFormed()
    requires Lower(tech) in tb.techQuestions
    requires q in tb.techQuestions[Lower(tech)] && q !in asked
    ensures exists choice: nat :: SelectQuestion(tb, tech, asked, None, choice) == FromBank(q)
  {
    EveryUnaskedQuestionCanBeChosen(tb.techQuestions[Lower(tech)], asked, q);
    var choice: nat :| ChooseUnasked(tb.techQuestions[Lower(tech)], asked, choice) == FromBank(q);
    assert SelectQuestion(tb, tech, asked, None, choice) == FromBank(q);
  }
}
