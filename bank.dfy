/** The shape of the question tables that `ask_technical_questions` draws from. */
module Bank {

  /** `TECH_QUESTIONS`, keyed by lower-case technology name, and `DEFAULT_QUESTIONS`. */
  datatype Tables = Tables(techQuestions: map<string, seq<string>>, defaultQuestions: seq<string>)
  {
    /** What the dialog relies on: `random.choice` is never given an empty list. */
    predicate WellFormed() {
      defaultQuestions != [] && forall k :: k in techQuestions ==> techQuestions[k] != []
    }
  }
}
