/** The question record read from the questions file. */
module Questions {

  /**
   * One quiz question in English and Hindi. `options` holds the answer
   * tokens that buttons send back; `optionsHindi` their Hindi labels.
   */
  datatype Question = Question(
    question: string,
    questionHindi: string,
    options: seq<string>,
    optionsHindi: seq<string>,
    correctAnswer: string,
    correctAnswerHindi: string)

  /**
   * What a sensible questions file satisfies: parallel option lists and a
   * correct answer that is one of the options. The bot never checks this.
   */
  predicate WellFormed(q: Question) {
    |q.options| == |q.optionsHindi| && q.correctAnswer in q.options
  }

  predicate Distinct(s: seq<string>) {
    forall i, j :: 0 <= i < j < |s| ==> s[i] != s[j]
  }
}
