/** Compiling a deny pattern to a regular expression by QuoteMeta and then replacing the escaped
    star, against an independent meaning of the pattern as a glob. */
module DenyPatterns {
  import opened Wrappers

  // ---- the compiler ----

  const META: set<char> := {'\\', '.', '+', '*', '?', '(', ')', '|', '[', ']', '{', '}', '^', '$'}

  function Escape(c: char): string {
    if c in META then ['\\', c] else [c]
  }

  /** regexp.QuoteMeta */
  function QuoteMeta(pattern: string): string {
    if pattern == "" then "" else Escape(pattern[0]) + QuoteMeta(pattern[1..])
  }

  /** strings.ReplaceAll(text, `\*`, ".*"): leftmost occurrences, not overlapping. */
  function ReplaceStars(text: string): string {
    if |text| < 2 then text
    else if text[0] == '\\' && text[1] == '*' then ".*" + ReplaceStars(text[2..])
    else [text[0]] + ReplaceStars(text[1..])
  }

  function CompilePattern(pattern: string): string {
    "^" + ReplaceStars(QuoteMeta(pattern)) + "$"
  }

  /** `None` stands for the panic of MustCompile. */
  function MatchesPattern(pattern: string, value: string): Option<bool> {
    match Parse(CompilePattern(pattern))
    case None => None
    case Some(regex) => Some(MatchString(regex, value))
  }

  // ---- regular expressions: the fragment that occurs ----

  datatype Atom = Exactly(c: char) | AnyChar

  datatype Piece = Begin | End | Once(atom: Atom) | Star(atom: Atom)

  type Regex = seq<Piece>

  /** Anything outside the fragment, and a dangling star or backslash, is refused. */
  function Parse(text: string): Option<Regex>
    decreases |text|, 0
  {
    if text == "" then Some([])
    else if text[0] == '^' then Prepend(Begin, Parse(text[1..]))
    else if text[0] == '$' then Prepend(End, Parse(text[1..]))
    else if text[0] == '.' then ParseRepeat(AnyChar, text[1..])
    else if text[0] == '\\' then
      if |text| > 1 && text[1] in META then ParseRepeat(Exactly(text[1]), text[2..]) else None
    else if text[0] in META then None
    else ParseRepeat(Exactly(text[0]), text[1..])
  }

  function ParseRepeat(atom: Atom, text: string): Option<Regex>
    decreases |text|, 1
  {
    if text != "" && text[0] == '*' then Prepend(Star(atom), Parse(text[1..]))
    else Prepend(Once(atom), Parse(text))
  }

  function Prepend(piece: Piece, rest: Option<Regex>): Option<Regex> {
    match rest case None => None case Some(regex) => Some([piece] + regex)
  }

  /** Without flags the dot does not match a line feed. */
  predicate Accepts(atom: Atom, c: char) {
    match atom case Exactly(d) => c == d case AnyChar => c != '\n'
  }

  /** A match of `regex` that starts at `i`. */
  predicate MatchFrom(regex: Regex, value: string, i: nat)
    requires i <= |value|
    decreases |value| - i, |regex|
  {
    if regex == [] then true
    else
      match regex[0]
      case Begin => i == 0 && MatchFrom(regex[1..], value, i)
      case End => i == |value| && MatchFrom(regex[1..], value, i)
      case Once(atom) => i < |value| && Accepts(atom, value[i]) && MatchFrom(regex[1..], value, i + 1)
      case Star(atom) =>
        || MatchFrom(regex[1..], value, i)
        || (i < |value| && Accepts(atom, value[i]) && MatchFrom(regex, value, i + 1))
  }

  /** Regexp.MatchString searches: a match may start anywhere. */
  predicate MatchString(regex: Regex, value: string) {
    exists i :: 0 <= i <= |value| && MatchFrom(regex, value, i)
  }

  // ---- globs ----

  function Flatten(parts: seq<string>): string {
    if parts == [] then "" else parts[0] + Flatten(parts[1..])
  }

  /** `parts` says what each character of the pattern stands for: a star for any run without line
      feeds, every other character for itself. */
  predicate Reads(pattern: string, parts: seq<string>) {
    && |parts| == |pattern|
    && forall k :: 0 <= k < |parts| ==> if pattern[k] == '*' then '\n' !in parts[k] else parts[k] == [pattern[k]]
  }

  ghost predicate Glob(pattern: string, value: string) {
    exists parts :: Reads(pattern, parts) && Flatten(parts) == value
  }

  // ---- what the compiler produces ----

  function Pieces(pattern: string): Regex {
    if pattern == "" then []
    else [if pattern[0] == '*' then Star(AnyChar) else Once(Exactly(pattern[0]))] + Pieces(pattern[1..])
  }

  /** The replaced text of a pattern: only the stars of the pattern itself are replaced. */
  function Fragment(pattern: string): string {
    if pattern == "" then ""
    else (if pattern[0] == '*' then ".*" else Escape(pattern[0])) + Fragment(pattern[1..])
  }

  /** Quoted text never begins with a star, so the backslash of an escaped backslash is never
      taken for the escape of a star that follows it. */
  lemma {:induction false} ReplaceStarsFragment(pattern: string)
    ensures QuoteMeta(pattern) != "" ==> QuoteMeta(pattern)[0] != '*'
    ensures ReplaceStars(QuoteMeta(pattern)) == Fragment(pattern)
  {
    if pattern != "" {
      hide ReplaceStars;
      var c, rest := pattern[0], QuoteMeta(pattern[1..]);
      ReplaceStarsFragment(pattern[1..]);
      if c in META {
        EscapedFirst(c, rest);
      } else {
        KeepFirst(c, rest);
      }
    }
  }

  /** An escaped character ahead of quoted text. */
  lemma {:induction false} EscapedFirst(c: char, rest: string)
    requires c in META && (rest == "" || rest[0] != '*')
    ensures ReplaceStars(['\\', c] + rest)
      == if c == '*' then ['.', '*'] + ReplaceStars(rest) else ['\\', c] + ReplaceStars(rest)
  {
    if c == '*' {
      assert (['\\', c] + rest)[2..] == rest;
    } else {
      KeepFirst(c, rest);
      KeepFirst('\\', [c] + rest);
      assert ['\\'] + ([c] + rest) == ['\\', c] + rest;
      assert ['\\'] + ([c] + ReplaceStars(rest)) == ['\\', c] + ReplaceStars(rest);
    }
  }

  lemma {:induction false} KeepFirst(c: char, rest: string)
    requires c != '\\' || rest == "" || rest[0] != '*'
    ensures ReplaceStars([c] + rest) == [c] + ReplaceStars(rest)
  {
    assert ([c] + rest)[1..] == rest;
  }

  lemma {:induction false} ParseEscaped(c: char, rest: string)
    requires rest != "" && rest[0] != '*'
    ensures Parse(Escape(c) + rest) == Prepend(Once(Exactly(c)), Parse(rest))
  {
    var text := Escape(c) + rest;
    assert text[|Escape(c)|..] == rest;
    assert ParseRepeat(Exactly(c), rest) == Prepend(Once(Exactly(c)), Parse(rest));
    assert Parse(text) == ParseRepeat(Exactly(c), text[|Escape(c)|..]);
  }

  lemma {:induction false} ParseAnyRun(rest: string)
    ensures Parse(".*" + rest) == Prepend(Star(AnyChar), Parse(rest))
  {
    var text := ".*" + rest;
    assert text[1..] == ['*'] + rest && text[1..][1..] == rest;
    assert Parse(text) == ParseRepeat(AnyChar, text[1..]);
  }

  lemma {:induction false} ParseFragment(pattern: string)
    ensures Fragment(pattern) != "" ==> Fragment(pattern)[0] != '*'
    ensures Parse(Fragment(pattern) + "$") == Some(Pieces(pattern) + [End])
  {
    if pattern == "" {
      assert Fragment(pattern) + "$" == "$" && "$"[1..] == "";
      assert Pieces(pattern) + [End] == [End] + [] == [End];
      assert Parse("") == Some([]);
      assert Parse("$") == Prepend(End, Parse(""));
    } else {
      var c, rest := pattern[0], Fragment(pattern[1..]) + "$";
      ParseFragment(pattern[1..]);
      hide Parse, ParseRepeat;
      assert rest[0] != '*';
      assert Pieces(pattern) + [End] == [Pieces(pattern)[0]] + (Pieces(pattern[1..]) + [End]);
      if c == '*' {
        ParseAnyRun(rest);
        assert Fragment(pattern) + "$" == ".*" + rest;
      } else {
        ParseEscaped(c, rest);
        assert Fragment(pattern) + "$" == Escape(c) + rest;
      }
    }
  }

  lemma {:induction false} ParseCompiled(pattern: string)
    ensures Parse(CompilePattern(pattern)) == Some([Begin] + Pieces(pattern) + [End])
  {
    var text := Fragment(pattern) + "$";
    ReplaceStarsFragment(pattern);
    ParseFragment(pattern);
    assert CompilePattern(pattern) == "^" + text;
    assert ("^" + text)[1..] == text;
    assert [Begin] + Pieces(pattern) + [End] == [Begin] + (Pieces(pattern) + [End]);
  }

  // ---- matching ----

  lemma {:induction false} GlobLiteral(pattern: string, value: string)
    requires pattern != "" && pattern[0] != '*'
    ensures Glob(pattern, value) <==> value != "" && value[0] == pattern[0] && Glob(pattern[1..], value[1..])
  {
    if Glob(pattern, value) {
      var parts :| Reads(pattern, parts) && Flatten(parts) == value;
      assert parts[0] == [pattern[0]];
      assert value == [pattern[0]] + Flatten(parts[1..]);
      assert Reads(pattern[1..], parts[1..]);
    }
    if value != "" && value[0] == pattern[0] && Glob(pattern[1..], value[1..]) {
      var parts :| Reads(pattern[1..], parts) && Flatten(parts) == value[1..];
      GlobCons(pattern, [pattern[0]], parts);
    }
  }

  lemma {:induction false} GlobCons(pattern: string, first: string, parts: seq<string>)
    requires pattern != "" && Reads(pattern[1..], parts)
    requires if pattern[0] == '*' then '\n' !in first else first == [pattern[0]]
    ensures Glob(pattern, first + Flatten(parts))
  {
    var all := [first] + parts;
    assert all[1..] == parts;
    assert forall k :: 0 < k < |all| ==> all[k] == parts[k - 1] && pattern[k] == pattern[1..][k - 1];
    assert Reads(pattern, all);
  }

  lemma {:induction false} GlobStar(pattern: string, value: string)
    requires pattern != "" && pattern[0] == '*'
    ensures Glob(pattern, value) <==>
      Glob(pattern[1..], value) || (value != "" && value[0] != '\n' && Glob(pattern, value[1..]))
  {
    if Glob(pattern, value) {
      GlobStarSplits(pattern, value);
    }
    if Glob(pattern[1..], value) {
      var parts :| Reads(pattern[1..], parts) && Flatten(parts) == value;
      GlobCons(pattern, "", parts);
      assert "" + value == value;
    }
    if value != "" && value[0] != '\n' && Glob(pattern, value[1..]) {
      GlobStarGrows(pattern, value);
    }
  }

  lemma {:induction false} GlobStarSplits(pattern: string, value: string)
    requires pattern != "" && pattern[0] == '*' && Glob(pattern, value)
    ensures Glob(pattern[1..], value) || (value != "" && value[0] != '\n' && Glob(pattern, value[1..]))
  {
    var parts :| Reads(pattern, parts) && Flatten(parts) == value;
    var run, rest := parts[0], Flatten(parts[1..]);
    assert value == run + rest && Reads(pattern[1..], parts[1..]);
    if run == "" {
      assert value == rest;
    } else {
      assert value[1..] == run[1..] + rest;
      GlobCons(pattern, run[1..], parts[1..]);
    }
  }

  lemma {:induction false} GlobStarGrows(pattern: string, value: string)
    requires pattern != "" && pattern[0] == '*'
    requires value != "" && value[0] != '\n' && Glob(pattern, value[1..])
    ensures Glob(pattern, value)
  {
    var parts :| Reads(pattern, parts) && Flatten(parts) == value[1..];
    GlobCons(pattern, [value[0]] + parts[0], parts[1..]);
    assert value == ([value[0]] + parts[0]) + Flatten(parts[1..]);
  }

  lemma {:induction false} GlobEmpty(value: string)
    ensures Glob("", value) <==> value == ""
  {
    assert Reads("", []) && Flatten([]) == "";
  }

  lemma {:induction false} MatchIsGlob(pattern: string, value: string, i: nat)
    requires i <= |value|
    ensures MatchFrom(Pieces(pattern) + [End], value, i) <==> Glob(pattern, value[i..])
    decreases |value| - i, |pattern|
  {
    hide Glob;
    var regex := Pieces(pattern) + [End];
    if pattern == "" {
      GlobEmpty(value[i..]);
      assert regex == [End] && regex[1..] == [];
    } else {
      assert regex[1..] == Pieces(pattern[1..]) + [End];
      if i < |value| {
        assert value[i..][1..] == value[i + 1..] && value[i..][0] == value[i];
      }
      if pattern[0] == '*' {
        GlobStar(pattern, value[i..]);
        MatchIsGlob(pattern[1..], value, i);
        if i < |value| {
          MatchIsGlob(pattern, value, i + 1);
        }
      } else {
        GlobLiteral(pattern, value[i..]);
        if i < |value| {
          MatchIsGlob(pattern[1..], value, i + 1);
        }
      }
    }
  }

  /** Compiling never panics, and the compiled expression matches exactly the values of the glob:
      every pattern, a backslash before a star included, and every value. */
  lemma {:induction false} PatternMeansGlob(pattern: string, value: string)
    ensures MatchesPattern(pattern, value) == Some(Glob(pattern, value))
  {
    hide Glob, CompilePattern;
    var regex := [Begin] + Pieces(pattern) + [End];
    ParseCompiled(pattern);
    MatchIsGlob(pattern, value, 0);
    assert value[0..] == value;
    assert regex[1..] == Pieces(pattern) + [End];
    assert MatchFrom(regex, value, 0) == Glob(pattern, value);
    assert forall i :: 0 < i <= |value| ==> !MatchFrom(regex, value, i);
  }

  /** A pattern without stars denies exactly itself. */
  lemma {:induction false} LiteralPattern(pattern: string, value: string)
    requires '*' !in pattern
    ensures MatchesPattern(pattern, value) == Some(value == pattern)
  {
    PatternMeansGlob(pattern, value);
    GlobOfLiteral(pattern, value);
  }

  lemma {:induction false} GlobOfLiteral(pattern: string, value: string)
    requires '*' !in pattern
    ensures Glob(pattern, value) <==> value == pattern
  {
    if pattern == "" {
      GlobEmpty(value);
    } else {
      GlobLiteral(pattern, value);
      if value != "" {
        GlobOfLiteral(pattern[1..], value[1..]);
        assert value == [value[0]] + value[1..] && pattern == [pattern[0]] + pattern[1..];
      }
    }
  }
}
