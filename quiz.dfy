/**
 * The quiz session: the process-wide `quiz_data` record and the handlers
 * `/start`, answer button, and `/stop` that act on it.
 */
module Quiz {
  import opened Results
  import opened Questions
  import opened Render

  /** A snapshot of `quiz_data`. */
  datatype Session = Session(questions: seq<Question>, currentQuestion: nat, score: nat)

  /** Each answer adds one to the index and at most one to the score. */
  predicate Consistent(s: Session) {
    s.score <= s.currentQuestion <= |s.questions|
  }

  /** Indexing `questions[current_question]` past the end raises. */
  datatype QuizError = IndexError

  /** What answering sends: the verdict, then the next question or the summary. */
  datatype AnswerReply = AnswerReply(feedback: string, next: Message)

  const StopReply: string := "Quiz stopped. Thank you for playing!"

  /** The session `/start` sets up, whatever came before. */
  function Started(qs: seq<Question>): Session {
    Session(qs, 0, 0)
  }

  /** `send_question`: the current question, or the summary once past the last. */
  function Prompt(s: Session): (m: Message)
    ensures m.Ask? <==> s.currentQuestion < |s.questions|
    ensures m.Ask? ==> QuestionNumber(m.text) == Some(s.currentQuestion + 1)
    ensures m.Finished? ==> ParseSummary(m.text) == Some((s.score, |s.questions|))
  {
    if s.currentQuestion < |s.questions| then
      var q := s.questions[s.currentQuestion];
      Ask(QuestionText(s.currentQuestion, q), Choices(q))
    else
      Finished(SummaryText(s.score, |s.questions|))
  }

  /** Grading is exact, case-sensitive string equality with the English answer. */
  predicate IsCorrect(q: Question, token: string) {
    token == q.correctAnswer
  }

  /**
   * The state change of one answer: fails when there is no current question,
   * and otherwise always advances, scoring only an exact match.
   */
  function Answer(s: Session, token: string): (r: Result<Session, QuizError>)
    ensures r.Success? <==> s.currentQuestion < |s.questions|
    ensures r.Success? && Consistent(s) ==> Consistent(r.value)
  {
    if s.currentQuestion < |s.questions| then
      var q := s.questions[s.currentQuestion];
      Success(Session(s.questions, s.currentQuestion + 1,
                      if IsCorrect(q, token) then s.score + 1 else s.score))
    else
      Failure(IndexError)
  }

  /**
   * The state an answer leaves when the verdict edit raises: the score has
   * already been raised on a match, but the index has not moved yet.
   */
  function InterruptedAnswer(s: Session, token: string): (r: Result<Session, QuizError>)
    ensures r.Success? <==> s.currentQuestion < |s.questions|
    ensures r.Success? ==>
      && r.value.questions == s.questions
      && r.value.currentQuestion == s.currentQuestion
      && (r.value.score == s.score + 1 <==> IsCorrect(s.questions[s.currentQuestion], token))
  {
    if s.currentQuestion < |s.questions| then
      var q := s.questions[s.currentQuestion];
      Success(Session(s.questions, s.currentQuestion,
                      if IsCorrect(q, token) then s.score + 1 else s.score))
    else
      Failure(IndexError)
  }

  /**
   * With one question, a correct press whose verdict edit raises followed by
   * the same press again ends the quiz with score 2 out of 1.
   */
  lemma InterruptedAnswerOvercounts(q: Question)
    ensures InterruptedAnswer(Started([q]), q.correctAnswer).Success?
    ensures var s := InterruptedAnswer(Started([q]), q.correctAnswer).value;
            Answer(s, q.correctAnswer) == Success(Session([q], 1, 2))
    ensures !Consistent(Session([q], 1, 2))
    ensures Prompt(Session([q], 1, 2)) == Finished(SummaryText(2, 1))
  {
  }

  /**
   * One answer moves the index by exactly one, keeps the questions, and adds
   * one to the score exactly when the token is the correct answer.
   */
  lemma AnswerEffect(s: Session, token: string)
    requires s.currentQuestion < |s.questions|
    ensures Answer(s, token).value.questions == s.questions
    ensures Answer(s, token).value.currentQuestion == s.currentQuestion + 1
    ensures (Answer(s, token).value.score == s.score + 1) <==>
            (token == s.questions[s.currentQuestion].correctAnswer)
    ensures (Answer(s, token).value.score == s.score) <==>
            (token != s.questions[s.currentQuestion].correctAnswer)
  {
  }

  /** A sequence of answer presses, stopping at the first failure. */
  function Run(s: Session, tokens: seq<string>): Result<Session, QuizError>
    decreases |tokens|
  {
    if tokens == [] then Success(s)
    else match Answer(s, tokens[0])
      case Failure(e) => Failure(e)
      case Success(s') => Run(s', tokens[1..])
  }

  /** How many of `tokens` match the correct answers of `qs`, position by position. */
  function CorrectCount(qs: seq<Question>, tokens: seq<string>): (n: nat)
    requires |tokens| <= |qs|
    ensures n <= |tokens|
    decreases |tokens|
  {
    if tokens == [] then 0
    else (if IsCorrect(qs[0], tokens[0]) then 1 else 0) + CorrectCount(qs[1..], tokens[1..])
  }

  /**
   * Answering while questions remain advances the index by the number of
   * answers and the score by the number of correct ones, and keeps the
   * session consistent.
   */
  lemma {:induction false} RunCounts(s: Session, tokens: seq<string>)
    requires s.currentQuestion + |tokens| <= |s.questions|
    ensures Run(s, tokens).Success?
    ensures Run(s, tokens).value == Session(s.questions, s.currentQuestion + |tokens|,
              s.score + CorrectCount(s.questions[s.currentQuestion..], tokens))
    ensures Consistent(s) ==> Consistent(Run(s, tokens).value)
    decreases |tokens|
  {
    if tokens != [] {
      var qs, k := s.questions, s.currentQuestion;
      var s' := Answer(s, tokens[0]).value;
      RunCounts(s', tokens[1..]);
      assert qs[k..][1..] == qs[k + 1..];
    } else {
      assert Run(s, tokens) == Success(s);
    }
  }

  /** One answer too many raises, whatever was answered before. */
  lemma {:induction false} RunOverrun(s: Session, tokens: seq<string>)
    requires s.currentQuestion <= |s.questions| < s.currentQuestion + |tokens|
    ensures Run(s, tokens) == Failure(IndexError)
    decreases |tokens|
  {
    if s.currentQuestion < |s.questions| {
      RunOverrun(Answer(s, tokens[0]).value, tokens[1..]);
    }
  }

  /**
   * From `/start`, after as many answers as there are questions, the summary
   * reports the number of correct answers out of the number of questions.
   */
  lemma FinalSummary(qs: seq<Question>, tokens: seq<string>)
    requires |tokens| == |qs|
    ensures Run(Started(qs), tokens).Success?
    ensures Prompt(Run(Started(qs), tokens).value)
              == Finished(SummaryText(CorrectCount(qs, tokens), |qs|))
  {
    RunCounts(Started(qs), tokens);
    assert qs[0..] == qs;
  }

  /** `/start` with no questions at once reports "0 / 0". */
  lemma StartEmpty()
    ensures Prompt(Started([])) == Finished("\U{1F389} Quiz finished! Your score is 0 / 0")
  {
  }

  /**
   * Three questions answered "Paris", "Green", "7" against correct answers
   * "Paris", "7", "Blue": only the first scores, and the quiz ends "1 / 3".
   */
  lemma ThreeQuestionScenario(q1: Question, q2: Question, q3: Question)
    requires q1.correctAnswer == "Paris" && q2.correctAnswer == "7" && q3.correctAnswer == "Blue"
    ensures Prompt(Run(Started([q1, q2, q3]), ["Paris", "Green", "7"]).value)
              == Finished("\U{1F389} Quiz finished! Your score is 1 / 3")
  {
  }

  /** The `quiz_data` record, shared by every chat the bot serves. */
  class QuizData {
    var questions: seq<Question>
    var currentQuestion: nat
    var score: nat

    function Snapshot(): Session
      reads this
    {
      Session(questions, currentQuestion, score)
    }

    ghost predicate Valid()
      reads this
    {
      Consistent(Snapshot())
    }

    /** The record as the module loads: no questions, both counters zero. */
    constructor ()
      ensures Valid()
      ensures questions == [] && currentQuestion == 0 && score == 0
    {
      questions, currentQuestion, score := [], 0, 0;
    }

    /**
     * `/start`: takes the loaded questions, resets both counters whatever the
     * previous state, and sends the first question (or the summary).
     */
    method Start(qs: seq<Question>) returns (reply: Message)
      modifies this
      ensures Valid()
      ensures questions == qs && currentQuestion == 0 && score == 0
      ensures reply == Prompt(Started(qs))
    {
      questions := qs;
      currentQuestion := 0;
      score := 0;
      reply := Prompt(Snapshot());
    }

    /**
     * An answer button: grades the token against the current question, then
     * always moves to the next one. Without a current question it raises
     * before changing anything.
     */
    method HandleAnswer(token: string) returns (r: Result<AnswerReply, QuizError>)
      requires Valid()
      modifies this
      ensures Valid()
      ensures r.Success? <==> old(currentQuestion) < |old(questions)|
      ensures r.Failure? ==> unchanged(this)
      ensures r.Success? ==>
        && questions == old(questions)
        && currentQuestion == old(currentQuestion) + 1
        && score == old(score) + (if token == questions[old(currentQuestion)].correctAnswer then 1 else 0)
      ensures r.Success? ==> Snapshot() == Answer(old(Snapshot()), token).value
      ensures r.Success? ==>
        r.value == AnswerReply(Feedback(IsCorrect(questions[old(currentQuestion)], token),
                                        questions[old(currentQuestion)]),
                               Prompt(Snapshot()))
    {
      var index := currentQuestion;
      if index >= |questions| {
        return Failure(IndexError);
      }
      var q := questions[index];
      var correct := IsCorrect(q, token);
      if correct {
        score := score + 1;
      }
      var feedback := Feedback(correct, q);
      currentQuestion := currentQuestion + 1;
      r := Success(AnswerReply(feedback, Prompt(Snapshot())));
    }

    /** `/stop`: replies and leaves the record as it is. */
    method Stop() returns (reply: string)
      ensures reply == StopReply
    {
      reply := StopReply;
    }
  }

  /**
   * `/stop` does not end the quiz: an answer pressed afterwards is still
   * graded against the current question.
   */
  method StopKeepsGrading(q: Question) returns (r: Result<AnswerReply, QuizError>)
    ensures r.Success? && r.value.feedback == Feedback(true, q)
    ensures r.value.next == Finished(SummaryText(1, 1))
  {
    var quiz := new QuizData();
    var first := quiz.Start([q]);
    var stopped := quiz.Stop();
    r := quiz.HandleAnswer(q.correctAnswer);
  }
}
