/** What a line scanner with a bounded buffer yields of a text: bufio.Scanner with ScanLines. */
module LineScanner {
  import opened Wrappers
  import opened TextLines

  /** The size of the largest buffer, in bytes: a line that does not fit it with its line feed ends
      the scan. */
  const LIMIT: nat := 0x10_0000

  /** One carriage return before the line feed is dropped. */
  function DropCR(line: string): (r: string)
    ensures if line != "" && Last(line) == CR then line == r + [CR] else line == r
  {
    if line != "" && Last(line) == CR then Init(line) else line
  }

  function Dropped(segs: seq<string>): seq<string> {
    if segs == [] then [] else Dropped(segs[..|segs| - 1]) + [DropCR(segs[|segs| - 1])]
  }

  /** The lines of a text; an unfinished last one counts when it is not empty. */
  function Tokens(text: string): seq<string> {
    Dropped(Complete(text)) + if Rest(text) == "" then [] else [DropCR(Rest(text))]
  }

  /** `k` is the beginning of the text or follows a line feed. */
  predicate LineStart(text: string, k: nat) {
    k <= |text| && (k == 0 || text[k - 1] == LF)
  }

  /** A line that does not fit the buffer, with more text behind it than `room` holds. */
  predicate Overlong(text: string, k: nat, room: nat) {
    LineStart(text, k) && k + LIMIT + room < |text| && LF !in text[k..k + LIMIT]
  }

  ghost predicate Overflows(text: string, room: nat) {
    exists k :: Overlong(text, k, room)
  }

  lemma {:induction false} DroppedSnoc(segs: seq<string>, seg: string)
    ensures Dropped([]) == [] && Dropped(segs + [seg]) == Dropped(segs) + [DropCR(seg)]
  {
    assert (segs + [seg])[..|segs|] == segs;
  }

  lemma {:induction false} DroppedAppend(a: seq<string>, b: seq<string>)
    ensures Dropped(a + b) == Dropped(a) + Dropped(b)
  {
    hide DropCR, Dropped;
    if b == [] {
      DroppedSnoc([], "");
      assert a + b == a;
    } else {
      var front, seg := b[..|b| - 1], b[|b| - 1];
      assert b == front + [seg] && a + b == (a + front) + [seg];
      DroppedAppend(a, front);
      DroppedSnoc(a + front, seg);
      DroppedSnoc(front, seg);
      Associate(Dropped(a), Dropped(front), [DropCR(seg)]);
    }
  }

  lemma {:induction false} RestIsLineStart(text: string)
    ensures Rest(text) == "" <==> text == "" || Last(text) == LF
  {
  }

  /** One more whole line. */
  lemma {:induction false} NextToken(done: string, line: string)
    requires Rest(done) == "" && LF !in line
    ensures Tokens(done + line + [LF]) == Tokens(done) + [DropCR(line)] && Rest(done + line + [LF]) == ""
  {
    SplitAppend(done, line);
    SplitWithoutLF(line);
    assert "" + line == line;
    SplitSnoc(done + line, LF);
    hide Complete, Rest, DropCR;
    assert Complete(done) + [] == Complete(done);
    DroppedSnoc(Complete(done), line);
  }

  /** The unfinished line at the end. */
  lemma {:induction false} LastToken(done: string, line: string)
    requires Rest(done) == "" && LF !in line && line != ""
    ensures Tokens(done + line) == Tokens(done) + [DropCR(line)]
  {
    SplitAppend(done, line);
    SplitWithoutLF(line);
    assert "" + line == line;
    hide Complete, Rest, DropCR, Dropped;
    assert Complete(done) + [] == Complete(done);
  }

  /** The whole lines of a first part are lines of the text, in order. */
  lemma {:induction false} TokensOfPrefix(text: string, k: nat)
    requires k <= |text|
    ensures Dropped(Complete(text[..k])) <= Tokens(text)
    ensures Rest(text[..k]) == "" ==> Tokens(text[..k]) <= Tokens(text)
  {
    hide Complete, Rest, Dropped;
    var a, b := text[..k], text[k..];
    assert text == a + b;
    SplitAppend(a, b);
    DroppedAppend(Complete(a), Complete(Rest(a) + b));
  }
}
