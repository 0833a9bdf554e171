/** Reassembling log lines from a stream of text chunks. */
module Reassembly {
  import opened Wrappers
  import opened TextLines

  /** The line a segment yields: trailing carriage returns stripped, nothing when it is empty. */
  function Line(seg: string): seq<string> {
    var line := TrimCR(seg);
    if line == "" then [] else [line]
  }

  /** So a segment of carriage returns yields nothing, and any other one line: all of it but the carriage
      returns at its end. */
  lemma {:induction false} LineMeans(seg: string)
    ensures Line(seg) == [] <==> forall k :: 0 <= k < |seg| ==> seg[k] == CR
    ensures Line(seg) != [] ==>
      && |Line(seg)| == 1 && Line(seg)[0] != "" && Line(seg)[0] <= seg
      && Last(Line(seg)[0]) != CR && forall k :: |Line(seg)[0]| <= k < |seg| ==> seg[k] == CR
  {
    var line := TrimCR(seg);
    if line != "" {
      assert seg[|line| - 1] == Last(line);
    }
  }

  function Kept(segs: seq<string>): seq<string> {
    if segs == [] then [] else Kept(segs[..|segs| - 1]) + Line(segs[|segs| - 1])
  }

  /** Reference: the lines of a whole text. */
  function Output(text: string): seq<string> {
    Kept(Split(text))
  }

  lemma {:induction false} KeptSnoc(segs: seq<string>, seg: string)
    ensures Kept(segs + [seg]) == Kept(segs) + Line(seg)
  {
    assert (segs + [seg])[..|segs|] == segs;
  }

  lemma {:induction false} KeptAppend(a: seq<string>, b: seq<string>)
    ensures Kept(a + b) == Kept(a) + Kept(b)
  {
    hide Kept, Line;
    KeptNothing();
    if b == [] {
      assert a + b == a;
    } else {
      var front, seg := b[..|b| - 1], b[|b| - 1];
      assert b == front + [seg];
      KeptAppend(a, front);
      KeptSnoc(a + front, seg);
      KeptSnoc(front, seg);
      Associate(a, front, [seg]);
      Associate(Kept(a), Kept(front), Line(seg));
    }
  }

  lemma {:induction false} SplitResume(first: string, more: string)
    ensures Split(first + more) == Complete(first) + Split(Rest(first) + more)
  {
    hide Complete, Rest;
    SplitAppend(first, more);
    Associate(Complete(first), Complete(Rest(first) + more), [Rest(first + more)]);
  }

  /** The lines of a text are those that a first part completes, then those of the rest of the
      text prefixed by what the first part left over. */
  lemma {:induction false} Resume(first: string, more: string)
    ensures Output(first + more) == Kept(Complete(first)) + Output(Rest(first) + more)
  {
    hide Complete, Rest, Split, Kept;
    SplitResume(first, more);
    KeptAppend(Complete(first), Split(Rest(first) + more));
  }

  lemma {:induction false} OutputOfRemainder(buf: string)
    requires LF !in buf
    ensures Output(buf) == Line(buf)
  {
    SplitWithoutLF(buf);
    KeptSnoc([], buf);
    assert Split(buf) == [] + [buf];
  }

  lemma {:induction false} OutputOfNothing()
    ensures Output("") == []
  {
    OutputOfRemainder("");
  }

  /** A text completes at most one line per character appended to a line-feed-free buffer. */
  lemma {:induction false} CompleteBound(buf: string, text: string)
    requires LF !in buf
    ensures |Complete(buf + text)| <= |text|
  {
    if text == [] {
      assert buf + text == buf;
      SplitWithoutLF(buf);
    } else {
      CompleteBound(buf, Init(text));
      SplitSnoc(buf + Init(text), Last(text));
      assert buf + text == (buf + Init(text)) + [Last(text)];
    }
  }

  lemma {:induction false} KeptBound(segs: seq<string>)
    ensures |Kept(segs)| <= |segs|
  {
    if segs != [] {
      KeptBound(segs[..|segs| - 1]);
    }
  }

  /** The buffer of one stream, rewritten in place. */
  class LineBuffer {
    var text: string

    constructor ()
      ensures text == ""
    {
      text := "";
    }

    /** Append `chunk` and take out the lines it completes; with `flush`, the remainder too. */
    method TakeLines(chunk: string, flush: bool) returns (lines: seq<string>)
      modifies this
      ensures !flush ==> lines == Kept(Complete(old(text) + chunk)) && text == Rest(old(text) + chunk)
      ensures flush ==> lines == Output(old(text) + chunk) && text == ""
      ensures LF !in text
    {
      hide Complete, Rest, Kept, Split;
      if chunk != "" {
        text := text + chunk;
      } else {
        assert text + chunk == text;
      }
      ghost var whole := text;
      ghost var segs: seq<string> := [];
      var remaining := text;
      lines := [];
      KeptNothing();
      while true
        invariant lines == Kept(segs)
        invariant segs + Complete(remaining) == Complete(whole)
        invariant Rest(remaining) == Rest(whole)
        decreases |remaining|
      {
        var idx := IndexLF(remaining);
        if idx < 0 {
          break;
        }
        var seg := remaining[..idx];
        SplitAtIndex(remaining);
        Associate(segs, [seg], Complete(remaining[idx + 1..]));
        KeptSnoc(segs, seg);
        var line := TrimRight(seg, {CR});
        if line != "" {
          lines := lines + [line];
        }
        segs := segs + [seg];
        remaining := remaining[idx + 1..];
      }
      SplitWithoutLF(remaining);
      assert segs == Complete(whole);
      text := "";
      if flush {
        TrimWithoutLF(remaining);
        OutputOfSplit(whole);
        remaining := TrimRight(remaining, {CR, LF});
        if remaining != "" {
          lines := lines + [remaining];
          remaining := "";
        }
      }
      text := text + remaining;
      assert "" + remaining == remaining;
    }
  }

  lemma {:induction false} KeptNothing()
    ensures Kept([]) == []
  {
  }

  lemma {:induction false} OutputOfSplit(text: string)
    ensures Output(text) == Kept(Complete(text)) + Line(Rest(text))
  {
    hide Complete, Rest, Kept;
    KeptSnoc(Complete(text), Rest(text));
  }

  /** Chunk invariance: however a text is cut, the lines taken out, the final flush included,
      are those of the whole text. */
  method TakeAll(chunks: seq<string>) returns (lines: seq<string>)
    ensures lines == Output(Concat(chunks))
  {
    hide Complete, Rest, Kept;
    var buf := new LineBuffer();
    lines := [];
    ghost var text := "";
    TakeNothing();
    for i := 0 to |chunks|
      invariant fresh(buf) && text == Concat(chunks[..i])
      invariant lines == Kept(Complete(text)) && buf.text == Rest(text)
    {
      assert chunks[..i + 1][..i] == chunks[..i];
      SplitAppend(text, chunks[i]);
      KeptAppend(Complete(text), Complete(buf.text + chunks[i]));
      var more := buf.TakeLines(chunks[i], false);
      lines := lines + more;
      text := text + chunks[i];
    }
    assert chunks[..|chunks|] == chunks;
    assert text + "" == text;
    Resume(text, "");
    var last := buf.TakeLines("", true);
    lines := lines + last;
  }

  lemma {:induction false} TakeNothing()
    ensures Kept(Complete("")) == [] && Rest("") == ""
  {
  }
}
