/** Quoting an argument vector for a POSIX shell, against a tokenizer for the shell's own rules:
    sections 2.2.1 (escape), 2.2.2 (single quotes), 2.2.3 (double quotes) and 2.3 (token
    recognition) of the POSIX.1-2017 Shell Command Language.

    The tokenizer gives up (`Unsupported`) on everything that is not plain word splitting:
    expansions, operators, comments, patterns, tildes and assignments, and on open quotes.
 */
module ShellQuoting {
  import opened Wrappers

  // ---- the quoting side ----

  /** strings.ReplaceAll(value, "'", `'"'"'`) */
  function Replaced(value: string): string {
    if value == "" then ""
    else
      var front, c := value[..|value| - 1], value[|value| - 1];
      Replaced(front) + if c == '\'' then "'\"'\"'" else [c]
  }

  function Quote(value: string): string {
    if value == "" then "''" else "'" + Replaced(value) + "'"
  }

  /** strings.Join */
  function Join(parts: seq<string>, sep: string): string {
    if parts == [] then ""
    else if |parts| == 1 then parts[0]
    else Join(parts[..|parts| - 1], sep) + sep + parts[|parts| - 1]
  }

  function Quoted(command: seq<string>): seq<string> {
    seq(|command|, i requires 0 <= i < |command| => Quote(command[i]))
  }

  function Joined(command: seq<string>): string {
    Join(Quoted(command), " ")
  }

  method ShellJoin(command: seq<string>) returns (line: string)
    ensures line == Joined(command)
    ensures Tokenize(line) == Some(command)
  {
    var parts := [];
    for i := 0 to |command|
      invariant parts == Quoted(command[..i])
    {
      parts := parts + [Quote(command[i])];
    }
    assert command[..|command|] == command;
    RoundTrip(command);
    line := Join(parts, " ");
  }

  // ---- the shell's side ----

  datatype Mode = Plain | Escaped | Single | Double | DoubleEscaped | Unsupported

  /** `word` is the word being collected, if one has begun. */
  datatype Scanner = Scanner(mode: Mode, words: seq<string>, word: Option<string>) {
    function Add(c: char): Scanner {
      this.(word := Some((if word.Some? then word.value else "") + [c]))
    }

    function Begin(mode: Mode): Scanner {
      Scanner(mode, words, Some(if word.Some? then word.value else ""))
    }

    function Delimit(): Scanner {
      if word.None? then this else Scanner(mode, words + [word.value], None)
    }
  }

  const SPECIAL: set<char> := {'|', '&', ';', '<', '>', '(', ')', '$', '`', '\n', '*', '?', '[', '#', '~', '=', '%'}

  function Step(s: Scanner, c: char): Scanner {
    match s.mode
    case Plain =>
      if c == ' ' || c == '\t' then s.Delimit()
      else if c == '\'' then s.Begin(Single)
      else if c == '\"' then s.Begin(Double)
      else if c == '\\' then s.(mode := Escaped)
      else if c in SPECIAL then s.(mode := Unsupported)
      else s.Add(c)
    case Escaped =>
      if c == '\n' then s.(mode := Plain) else s.(mode := Plain).Add(c)
    case Single =>
      if c == '\'' then s.(mode := Plain) else s.Add(c)
    case Double =>
      if c == '\"' then s.(mode := Plain)
      else if c == '\\' then s.(mode := DoubleEscaped)
      else if c == '$' || c == '`' then s.(mode := Unsupported)
      else s.Add(c)
    case DoubleEscaped =>
      if c == '\n' then s.(mode := Double)
      else if c in {'$', '`', '\"', '\\'} then s.(mode := Double).Add(c)
      else s.(mode := Double).Add('\\').Add(c)
    case Unsupported => s
  }

  function Run(s: Scanner, text: string): Scanner {
    if text == "" then s else Step(Run(s, text[..|text| - 1]), text[|text| - 1])
  }

  const START := Scanner(Plain, [], None)

  function Tokenize(text: string): Option<seq<string>> {
    var s := Run(START, text);
    if s.mode == Plain then Some(s.Delimit().words) else None
  }

  // ---- what the tokenizer makes of the rest of the language ----

  predicate Ordinary(c: char) {
    c !in SPECIAL && c !in {' ', '\t', '\'', '\"', '\\'}
  }

  /** Ordinary characters are collected as they are. */
  lemma {:induction false} OrdinaryWord(text: string)
    requires text != "" && forall k :: 0 <= k < |text| ==> Ordinary(text[k])
    ensures Tokenize(text) == Some([text])
  {
    hide Run;
    OrdinaryRun(text);
    assert [] + [text] == [text];
  }

  lemma {:induction false} OrdinaryRun(text: string)
    requires forall k :: 0 <= k < |text| ==> Ordinary(text[k])
    ensures Run(START, text) == Scanner(Plain, [], if text == "" then None else Some(text))
  {
    if text != "" {
      var front, c := text[..|text| - 1], text[|text| - 1];
      OrdinaryRun(front);
      assert text == front + [c] && [] + [c] == [c];
    }
  }

  /** A backslash keeps the next character, whatever it is, and joins two lines. */
  lemma {:induction false} EscapedCharacter(word: string, c: char)
    ensures Step(Step(Scanner(Plain, [], Some(word)), '\\'), c)
      == Scanner(Plain, [], Some(if c == '\n' then word else word + [c]))
  {
  }

  /** Within double quotes it does so only before a dollar, a backquote, a double quote or a backslash;
      expansions are not supported there. */
  lemma {:induction false} DoubleQuotedCharacter(word: string, c: char)
    ensures var s := Scanner(Double, [], Some(word));
      && Step(Step(s, '\\'), c)
         == Scanner(Double, [], Some(if c == '\n' then word
                                     else if c in {'$', '`', '\"', '\\'} then word + [c] else word + ['\\'] + [c]))
      && (c !in {'$', '`', '\"', '\\'} ==> Step(s, c) == Scanner(Double, [], Some(word + [c])))
      && (Step(s, c).mode.Unsupported? <==> c in {'$', '`'})
  {
  }

  // ---- the round trip ----

  lemma {:induction false} RunNothing(s: Scanner)
    ensures Run(s, "") == s
  {
  }

  lemma {:induction false} RunSnoc(s: Scanner, text: string, c: char)
    ensures Run(s, text + [c]) == Step(Run(s, text), c)
  {
    assert (text + [c])[..|text|] == text;
  }

  lemma {:induction false} RunAppend(s: Scanner, a: string, b: string)
    ensures Run(s, a + b) == Run(Run(s, a), b)
  {
    if b == "" {
      assert a + b == a;
    } else {
      var front, c := b[..|b| - 1], b[|b| - 1];
      RunAppend(s, a, front);
      RunSnoc(s, a + front, c);
      assert a + b == (a + front) + [c];
    }
  }

  lemma {:induction false} RunEscapedQuote(words: seq<string>, word: string)
    ensures Run(Scanner(Single, words, Some(word)), "'\"'\"'") == Scanner(Single, words, Some(word + ['\'']))
  {
    hide Run;
    RunFive(Scanner(Single, words, Some(word)), '\'', '\"', '\'', '\"', '\'');
  }

  /** Inside single quotes, the replacement for a single quote closes them, adds a double-quoted
      single quote and opens them again. */
  lemma {:induction false} RunReplaced(words: seq<string>, word: string, value: string)
    ensures Run(Scanner(Single, words, Some(word)), Replaced(value)) == Scanner(Single, words, Some(word + value))
  {
    hide Run;
    var s := Scanner(Single, words, Some(word));
    if value == "" {
      RunNothing(s);
      assert word + value == word;
    } else {
      var front, c := value[..|value| - 1], value[|value| - 1];
      RunReplaced(words, word, front);
      assert word + value == (word + front) + [c];
      if c == '\'' {
        RunAppend(s, Replaced(front), "'\"'\"'");
        RunEscapedQuote(words, word + front);
      } else {
        RunSnoc(s, Replaced(front), c);
      }
    }
  }

  lemma {:induction false} RunFive(s: Scanner, a: char, b: char, c: char, d: char, e: char)
    ensures Run(s, [a, b, c, d, e]) == Step(Step(Step(Step(Step(s, a), b), c), d), e)
  {
    hide Step;
    assert [a, b, c, d, e] == [a, b, c, d] + [e] && [a, b, c, d] == [a, b, c] + [d];
    assert [a, b, c] == [a, b] + [c] && [a, b] == [a] + [b] && [a] == [] + [a];
    RunSnoc(s, [], a);
    RunSnoc(s, [a], b);
    RunSnoc(s, [a, b], c);
    RunSnoc(s, [a, b, c], d);
    RunSnoc(s, [a, b, c, d], e);
  }

  /** Wherever quotes are not open, a quoted value adds exactly that value to the current word. */
  lemma {:induction false} RunQuote(s: Scanner, value: string)
    requires s.mode == Plain
    ensures Run(s, Quote(value)) == Scanner(Plain, s.words, Some((if s.word.Some? then s.word.value else "") + value))
  {
    var word := if s.word.Some? then s.word.value else "";
    var quote := Scanner(Single, s.words, Some(word));
    assert "'" == [] + ['\''];
    RunSnoc(s, [], '\'');
    assert Replaced("") == "" && "''" == "'" + Replaced("") + "'";
    RunAppend(s, "'", Replaced(value));
    RunReplaced(s.words, word, value);
    RunSnoc(s, "'" + Replaced(value), '\'');
  }

  lemma {:induction false} JoinedSnoc(front: seq<string>, last: string)
    ensures Joined(front + [last]) == if front == [] then Quote(last) else Joined(front) + " " + Quote(last)
  {
    hide Quote;
    assert Quoted(front + [last]) == Quoted(front) + [Quote(last)];
    assert (Quoted(front) + [Quote(last)])[..|front|] == Quoted(front);
  }

  lemma {:induction false} NothingJoined()
    ensures Joined([]) == ""
  {
  }

  lemma {:induction false} RunJoined(command: seq<string>)
    ensures var s := Run(START, Joined(command));
      s.mode == Plain && s.Delimit() == Scanner(Plain, command, None)
  {
    hide Joined, Quote, Run;
    if command == [] {
      NothingJoined();
      RunNothing(START);
    } else {
      var front, last := command[..|command| - 1], command[|command| - 1];
      var line := Joined(front);
      RunJoined(front);
      assert command == front + [last];
      assert "" + last == last;
      JoinedSnoc(front, last);
      if front == [] {
        RunNothing(START);
        RunQuote(START, last);
      } else {
        RunSnoc(START, line, ' ');
        assert line + " " == line + [' '];
        RunAppend(START, line + " ", Quote(last));
        RunQuote(Run(START, line + " "), last);
      }
    }
  }

  /** Tokenizing the joined line gives back the command: every list of strings, empty strings and
      embedded quotes included. */
  lemma {:induction false} RoundTrip(command: seq<string>)
    ensures Tokenize(Joined(command)) == Some(command)
  {
    RunJoined(command);
  }

  lemma {:induction false} JoinedIsInjective(a: seq<string>, b: seq<string>)
    requires Joined(a) == Joined(b)
    ensures a == b
  {
    RoundTrip(a);
    RoundTrip(b);
  }

  /** A quoted path appended to a command line, as in `"rm -f " + shellQuote(path)`, is one more word. */
  lemma {:induction false} QuotedArgument(prefix: string, path: string)
    requires Tokenize(prefix).Some?
    ensures Tokenize(prefix + " " + Quote(path)) == Some(Tokenize(prefix).value + [path])
  {
    assert prefix + " " == prefix + [' '];
    RunSnoc(START, prefix, ' ');
    RunAppend(START, prefix + " ", Quote(path));
    RunQuote(Run(START, prefix + " "), path);
    assert "" + path == path;
  }
}
