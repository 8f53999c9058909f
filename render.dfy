/**
 * The messages the bot sends: a question with its answer buttons, the final
 * score, and the verdict on an answer. Pure formatting; delivering them is
 * the chat library's business.
 */
module Render {
  import opened Results
  import opened Decimal
  import opened Questions

  /** An answer button: the text shown and the token it sends back. */
  datatype Choice = Choice(text: string, token: string)

  /** What `send_question` sends: a question with buttons, or the summary. */
  datatype Message = Ask(text: string, choices: seq<Choice>) | Finished(text: string)

  function Min(a: nat, b: nat): nat {
    if a <= b then a else b
  }

  /** "Q<number>: <hindi> (<english>)", numbered from 1. */
  function QuestionText(index: nat, q: Question): (t: string)
    ensures QuestionNumber(t) == Some(index + 1)
  {
    var rest := ": " + q.questionHindi + " (" + q.question + ")";
    ReadNatOfString(index + 1, rest);
    assert ("Q" + NatToString(index + 1) + rest)[1..] == NatToString(index + 1) + rest;
    "Q" + NatToString(index + 1) + rest
  }

  /** The question number a question text starts with. */
  function QuestionNumber(t: string): Option<nat>
  {
    if |t| == 0 || t[0] != 'Q' then None
    else match ReadNat(t[1..])
      case None => None
      case Some((n, _)) => Some(n)
  }

  /** A button label: "<hindi> (<english>)". */
  function Label(hindi: string, english: string): string {
    hindi + " (" + english + ")"
  }

  /**
   * Buttons for `zip(options, optionsHindi)`: pairs in order, as many as the
   * shorter list; each shows both languages and sends the English option.
   */
  function ZipChoices(options: seq<string>, optionsHindi: seq<string>): (cs: seq<Choice>)
    ensures |cs| == Min(|options|, |optionsHindi|)
    ensures forall i :: 0 <= i < |cs| ==>
      cs[i] == Choice(Label(optionsHindi[i], options[i]), options[i])
    decreases |options|
  {
    if options == [] || optionsHindi == [] then
      []
    else
      [Choice(Label(optionsHindi[0], options[0]), options[0])]
      + ZipChoices(options[1..], optionsHindi[1..])
  }

  function Choices(q: Question): seq<Choice> {
    ZipChoices(q.options, q.optionsHindi)
  }

  /**
   * For a well-formed question with distinct options, exactly one button
   * sends the correct answer.
   */
  lemma CorrectChoiceUnique(q: Question)
    requires WellFormed(q) && Distinct(q.options)
    ensures exists i :: 0 <= i < |Choices(q)| && Choices(q)[i].token == q.correctAnswer &&
              forall j :: 0 <= j < |Choices(q)| && j != i ==> Choices(q)[j].token != q.correctAnswer
  {
    var cs := Choices(q);
    var i :| 0 <= i < |q.options| && q.options[i] == q.correctAnswer;
    assert cs[i].token == q.correctAnswer;
    forall j | 0 <= j < |cs| && j != i
      ensures cs[j].token != q.correctAnswer
    {
      if j < i { assert q.options[j] != q.options[i]; }
      else { assert q.options[i] != q.options[j]; }
    }
  }

  const SummaryPrefix: string := "\U{1F389} Quiz finished! Your score is "

  /** The end-of-quiz message, "<score> / <total>". */
  function SummaryText(score: nat, total: nat): (t: string)
    ensures ParseSummary(t) == Some((score, total))
  {
    var t := SummaryPrefix + NatToString(score) + " / " + NatToString(total);
    SummaryRoundTrip(score, total);
    t
  }

  /** Recovers score and total from a summary message. */
  function ParseSummary(t: string): Option<(nat, nat)>
  {
    var p := |SummaryPrefix|;
    if |t| < p || t[..p] != SummaryPrefix then None else ParseFraction(t[p..])
  }

  /** Reads "<score> / <total>" and nothing after it. */
  function ParseFraction(body: string): Option<(nat, nat)>
  {
    match ReadNat(body)
    case None => None
    case Some((score, rest)) =>
      match ParseDenominator(rest)
      case None => None
      case Some(total) => Some((score, total))
  }

  /** Reads " / <total>" and nothing after it. */
  function ParseDenominator(rest: string): Option<nat>
  {
    if |rest| < 3 || rest[..3] != " / " then None
    else match ReadNat(rest[3..])
      case None => None
      case Some((total, tail)) => if tail == [] then Some(total) else None
  }

  lemma DenominatorRoundTrip(total: nat)
    ensures ParseDenominator(" / " + NatToString(total)) == Some(total)
  {
    var rest := " / " + NatToString(total);
    assert rest[..3] == " / ";
    assert rest[3..] == NatToString(total) + [];
    ReadNatOfString(total, []);
  }

  lemma FractionRoundTrip(score: nat, total: nat)
    ensures ParseFraction(NatToString(score) + (" / " + NatToString(total))) == Some((score, total))
  {
    ReadNatOfString(score, " / " + NatToString(total));
    DenominatorRoundTrip(total);
  }

  lemma SummaryRoundTrip(score: nat, total: nat)
    ensures ParseSummary(SummaryPrefix + NatToString(score) + " / " + NatToString(total))
      == Some((score, total))
  {
    var body := NatToString(score) + (" / " + NatToString(total));
    var t := SummaryPrefix + NatToString(score) + " / " + NatToString(total);
    assert t == SummaryPrefix + body;
    assert t[..|SummaryPrefix|] == SummaryPrefix;
    assert t[|SummaryPrefix|..] == body;
    FractionRoundTrip(score, total);
  }

  const CorrectFeedback: string := "\U{2705} Correct!"
  const IncorrectPrefix: string := "\U{274C} Incorrect! Correct answer: "

  /**
   * The verdict shown in place of the answered question. Its first character
   * tells the two verdicts apart; a wrong answer is told the correct one,
   * in Hindi and in English.
   */
  function Feedback(correct: bool, q: Question): (t: string)
    ensures |t| > 0 && (t[0] == '\U{2705}' <==> correct)
    ensures !correct ==>
      |t| > |q.correctAnswer| && t[|t| - |q.correctAnswer| - 1..] == q.correctAnswer + ")"
  {
    if correct then CorrectFeedback
    else IncorrectPrefix + Label(q.correctAnswerHindi, q.correctAnswer)
  }
}
