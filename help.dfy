/** The `/help` reply: a header and one line per entry of the command table. */
module Help {

  /** Command name and description, in the table's insertion order. */
  type CommandTable = seq<(string, string)>

  /** The table the bot lists. `/language` and `/score` have no handler. */
  const Commands: CommandTable := [
    ("/start", "Start the quiz"),
    ("/stop", "Stop the bot"),
    ("/help", "Get help"),
    ("/language", "Change language (Hindi/English)"),
    ("/score", "Check your score")
  ]

  const Header: string := "Here are the available commands:\n"

  function Line(entry: (string, string)): string {
    entry.0 + ": " + entry.1 + "\n"
  }

  /** The lines for the entries of `cmds`, in order. */
  function Lines(cmds: CommandTable): string
    decreases |cmds|
  {
    if cmds == [] then "" else Lines(cmds[..|cmds| - 1]) + Line(cmds[|cmds| - 1])
  }

  function HelpText(cmds: CommandTable): string {
    Header + Lines(cmds)
  }

  /** Builds the help text by appending one line per command. */
  method ShowHelp(cmds: CommandTable) returns (text: string)
    ensures text == HelpText(cmds)
  {
    text := Header;
    for i := 0 to |cmds|
      invariant text == Header + Lines(cmds[..i])
    {
      assert cmds[..i + 1][..i] == cmds[..i];
      text := text + Line(cmds[i]);
    }
    assert cmds[..|cmds|] == cmds;
  }

  lemma {:induction false} LinesAppend(a: CommandTable, b: CommandTable)
    ensures Lines(a + b) == Lines(a) + Lines(b)
    decreases |b|
  {
    if b == [] {
      assert a + b == a;
    } else {
      var b', last := b[..|b| - 1], b[|b| - 1];
      assert (a + b)[..|a + b| - 1] == a + b';
      assert (a + b)[|a + b| - 1] == last;
      LinesAppend(a, b');
      calc {
        Lines(a + b);
        Lines(a + b') + Line(last);
        (Lines(a) + Lines(b')) + Line(last);
        Lines(a) + (Lines(b') + Line(last));
        Lines(a) + Lines(b);
      }
    }
  }

  /**
   * Entry `i` gets its own line, after the lines of every earlier entry and
   * before those of every later one.
   */
  lemma LineOrder(cmds: CommandTable, i: nat)
    requires i < |cmds|
    ensures HelpText(cmds) == Header + Lines(cmds[..i]) + Line(cmds[i]) + Lines(cmds[i + 1..])
  {
    assert cmds == cmds[..i] + [cmds[i]] + cmds[i + 1..];
    LinesAppend(cmds[..i] + [cmds[i]], cmds[i + 1..]);
    LinesAppend(cmds[..i], [cmds[i]]);
    assert Lines([cmds[i]]) == Lines([]) + Line(cmds[i]);
  }

  function CountNewlines(s: string): nat
    decreases |s|
  {
    if s == [] then 0 else CountNewlines(s[..|s| - 1]) + (if s[|s| - 1] == '\n' then 1 else 0)
  }

  lemma {:induction false} CountNewlinesAppend(a: string, b: string)
    ensures CountNewlines(a + b) == CountNewlines(a) + CountNewlines(b)
    decreases |b|
  {
    if b == [] {
      assert a + b == a;
    } else {
      var b' := b[..|b| - 1];
      assert (a + b)[..|a + b| - 1] == a + b';
      CountNewlinesAppend(a, b');
    }
  }

  lemma {:induction false} CountNewlinesFree(s: string)
    requires '\n' !in s
    ensures CountNewlines(s) == 0
    decreases |s|
  {
    if s != [] {
      CountNewlinesFree(s[..|s| - 1]);
    }
  }

  predicate SingleLine(entry: (string, string)) {
    '\n' !in entry.0 && '\n' !in entry.1
  }

  lemma LineNewlines(e: (string, string))
    requires SingleLine(e)
    ensures CountNewlines(Line(e)) == 1
  {
    CountNewlinesAppend(e.0 + ": " + e.1, "\n");
    CountNewlinesAppend(e.0 + ": ", e.1);
    CountNewlinesAppend(e.0, ": ");
    CountNewlinesFree(e.0);
    CountNewlinesFree(e.1);
    assert CountNewlines(": ") == 0;
    assert CountNewlines("\n") == 1;
  }

  /**
   * When no name or description spans lines, the help text has exactly one
   * line for the header and one per command.
   */
  lemma {:induction false} HelpLineCount(cmds: CommandTable)
    requires forall e :: e in cmds ==> SingleLine(e)
    ensures CountNewlines(HelpText(cmds)) == |cmds| + 1
    decreases |cmds|
  {
    if cmds == [] {
      var words := "Here are the available commands:";
      assert Header == words + "\n";
      CountNewlinesFree(words);
      CountNewlinesAppend(words, "\n");
      assert HelpText(cmds) == Header;
    } else {
      var front, e := cmds[..|cmds| - 1], cmds[|cmds| - 1];
      assert e in cmds;
      assert forall f :: f in front ==> f in cmds;
      HelpLineCount(front);
      LineNewlines(e);
      assert Lines(cmds) == Lines(front) + Line(e);
      assert HelpText(cmds) == HelpText(front) + Line(e);
      CountNewlinesAppend(HelpText(front), Line(e));
    }
  }

  /** The bot's own help reply has the header and five command lines. */
  lemma CommandsHelpLineCount()
    ensures CountNewlines(HelpText(Commands)) == 6
  {
    HelpLineCount(Commands);
  }
}
