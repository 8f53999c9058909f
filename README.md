# Quizebot quiz session, modelled in Dafny

Quizebot is a Telegram trivia bot. It holds one process-wide record,
`quiz_data`, with the loaded questions, the index of the current question and
the score. `/start` loads the questions and resets both counters. Each button
press grades the pressed option against the current question, then moves to
the next question. Once past the last question the bot tries to send the
summary `score / total`. On a button press that send fails (see "## Left
out"), so only `/start` with an empty list delivers it. `/stop` only replies,
and `/help` lists the command table.

This project models that record and its handlers. It also models the texts the
bot sends: the numbered question with its answer buttons, the verdict on an
answer, the summary and the help text.

Modules, all from `Bot.py`:

- `Results`: `Option` and `Result`.
- `Decimal`: how Python prints a non-negative integer, and a reader that gets
  the number back.
- `Questions`: the question record.
- `Render`: the question text, the buttons, the summary and the feedback.
- `Help`: the command table and the `/help` loop.
- `Quiz`: a `Session` value with the specification functions `Prompt`
  (`send_question`), `Answer` and `Run`, and the class `QuizData`, which holds
  the record as mutable fields. Its methods are `Start`, `HandleAnswer` and
  `Stop`.

Behaviour of the code worth knowing:

- `/stop` does not end the quiz. The record is left as it is, so a later
  button press is still graded (`Quiz.StopKeepsGrading`).
- A button press with no current question is not ignored. Before `/start`,
  after the last question, or from a stale button, indexing
  `questions[current_question]` raises `IndexError` before anything changes.
  The model returns `Failure(IndexError)` and leaves the state unchanged.
- Grading compares the token with the correct answer of the *current*
  question. Against correct answers "Paris", "7", "Blue", the presses "Paris",
  "Green", "7" score only once, so the quiz ends "1 / 3"
  (`Quiz.ThreeQuestionScenario`).
- There is one record for the whole process, not one session per chat.
- Question records are never validated. `Questions.WellFormed` states the
  intended shape, and only the lemmas that need it assume it.

## Model

| member | source | states |
|---|---|---|
| `Decimal.NatToString` | Bot.py:67 | Integers are printed as in Python: at least one digit, all digits, a single digit exactly below 10, and a leading '0' only for zero |
| `Decimal.ReadNatOfString` | Bot.py:81 | A printed number followed by a non-digit reads back as the same number with the same remainder, so printing loses nothing |
| `Decimal.NatToStringInjective` | Bot.py:81 | Different numbers are printed differently |
| `Render.QuestionText` | Bot.py:66-68 | The question text for index i starts "Q" and carries the number i+1 (numbering starts at 1), which reads back from the text |
| `Render.ZipChoices` | Bot.py:69-72 | The buttons follow `zip(options, options_hindi)`: one button per pair, as many as the shorter list, in order; button i shows "hindi (english)" and sends the English option |
| `Render.CorrectChoiceUnique` | Bot.py:69-72 | For a question whose option lists are parallel and distinct and contain the correct answer, exactly one button sends the correct answer |
| `Render.SummaryText` | Bot.py:79-82 | The summary can be parsed back to exactly the score and the total it was built from |
| `Render.Feedback` | Bot.py:96-103 | The first character tells correct from incorrect; an incorrect verdict ends with the correct English answer in parentheses |
| `Help.ShowHelp` | Bot.py:53-55 | The loop that appends one line per command builds the header followed by the lines of every entry, in table order |
| `Help.LineOrder` | Bot.py:53-55 | Entry i's "cmd: desc" line follows the lines of all earlier entries and precedes those of all later ones |
| `Help.HelpLineCount` | Bot.py:53-55 | If no name or description has a line break, the help text has exactly one line per command plus the header |
| `Help.CommandsHelpLineCount` | Bot.py:23-29 | The bot's five-entry table gives a six-line help text |
| `Quiz.Prompt` | Bot.py:63-82 | `send_question` asks a question exactly when the index is below the number of questions; the question carries number index+1; otherwise the summary reads back as the score over the number of questions |
| `Quiz.Answer` | Bot.py:93-105 | An answer succeeds exactly when a current question exists, and it keeps score <= index <= number of questions |
| `Quiz.InterruptedAnswer` | Bot.py:93-98 | The state left when the verdict edit raises: it fails exactly when there is no current question; otherwise the questions and index are unchanged and the score has risen by one exactly on a match |
| `Quiz.InterruptedAnswerOvercounts` | Bot.py:96-105 | With one question, an interrupted correct answer followed by the same press again ends at score 2, index 1: the invariant is broken and the summary is "2 / 1" |
| `Quiz.AnswerEffect` | Bot.py:93-105 | An answer keeps the questions and advances the index by exactly one. The score rises by one if and only if the token equals the correct answer, and is unchanged otherwise |
| `Quiz.CorrectCount` | Bot.py:96-97 | The number of correct answers is at most the number of answers |
| `Quiz.RunCounts` | Bot.py:93-105 | While questions remain, n answers advance the index by n and the score by the number of answers matching the correct answers position by position; the invariant score <= index <= total holds throughout |
| `Quiz.RunOverrun` | Bot.py:93-94 | Answering more often than questions remain raises IndexError |
| `Quiz.FinalSummary` | Bot.py:79-82 | From `/start`, after one answer per question, the quiz is finished and the summary shows the number of correct answers over the number of questions |
| `Quiz.StartEmpty` | Bot.py:36-39 | `/start` with no questions at once sends the summary "0 / 0" |
| `Quiz.ThreeQuestionScenario` | Bot.py:93-105 | Against correct answers Paris, 7, Blue, the answers Paris, Green, 7 end the quiz at "1 / 3" |
| `Quiz.QuizData.constructor` | Bot.py:12 | The record starts with no questions and both counters at zero |
| `Quiz.QuizData.Start` | Bot.py:32-39 | `/start` replaces the questions with the given list, sets index and score to 0 whatever the prior state, and sends the first question or the summary |
| `Quiz.QuizData.HandleAnswer` | Bot.py:85-106 | Raises and changes nothing when there is no current question. Otherwise it keeps the questions, advances the index by one, adds one to the score exactly on an exact match, sends the matching verdict and then the next prompt, and keeps the invariant |
| `Quiz.QuizData.Stop` | Bot.py:42-46 | `/stop` sends the fixed farewell and modifies nothing |
| `Quiz.StopKeepsGrading` | Bot.py:42-46 | After `/start` and `/stop`, pressing the correct button is still graded as correct and finishes the quiz at "1 / 1" |

## Findings

| source | as written | input that shows it | evidently intended | confidence | as-written member | corrected member |
|---|---|---|---|---|---|---|
| Bot.py:96-105 | `score += 1` at line 97 runs before the `await` of the verdict edit at line 98, and `current_question += 1` only at line 105; if the edit raises, the score has risen but the index has not, and the question's buttons are still shown | one question; the correct button is pressed, the verdict edit raises, and the same button is pressed again: the session ends at score 2, index 1, and the summary reads "2 / 1" | an answer changes score and index together, so that score <= current_question <= number of questions always holds | medium; not executed | `Quiz.InterruptedAnswer`, `Quiz.InterruptedAnswerOvercounts` | `Quiz.Answer` (preserves `Quiz.Consistent`), used by `Quiz.QuizData.HandleAnswer` |

## Left out

- Quiz.QuizData.HandleAnswer: assumes that the Telegram calls inside the
  handler do not raise. In `Bot.py` the score is raised at line 97 before the
  verdict edit at line 98, and the index only at line 105. A failing edit
  leaves a state where score exceeds the index, which `Valid()` rules out.
  `Quiz.InterruptedAnswer` models that path (see "## Findings").

- Telegram transport: `reply_text`, `edit_message_text`, `query.answer()`, the
  keyboard markups and `show_commands_menu`. The model returns the texts and
  button lists that would be sent.
- Sending the summary through `update.message` on a callback update, where
  there is no message. This is transport behaviour.
- `load_questions`, which reads the JSON file. `Start` takes the question list
  as a parameter. A missing file, bad JSON or a record without a field
  (`KeyError`) are not modelled.
- Loading the bot token from the environment, `main`, handler registration,
  polling, and the unregistered `fallback` handler.
- async scheduling. Each handler runs to completion as one step.
- Negative indices. The counters are `nat`, which they always are in the
  source, so Python's indexing from the end cannot arise.
- `/language` and `/score` appear in the help table, but no handler exists for
  them.
