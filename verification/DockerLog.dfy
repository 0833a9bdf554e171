/** The line writer that turns a container's byte stream into numbered log lines. */
module DockerLog {
  import opened Wrappers
  import opened TextLines

  datatype LogLine = LogLine(number: nat, text: string)

  function Trimmed(segs: seq<string>): seq<string> {
    seq(|segs|, i requires 0 <= i < |segs| => TrimCR(segs[i]))
  }

  /** Reference: the lines of a whole text.  Blank lines are kept; a last segment counts
      only when it is not empty. */
  function DockerLines(text: string): seq<string> {
    Trimmed(Complete(text)) + if Rest(text) == [] then [] else [TrimCR(Rest(text))]
  }

  function Numbered(lines: seq<string>, limit: int): seq<LogLine> {
    seq(|lines|, i requires 0 <= i < |lines| => LogLine(i + 1, TruncateLine(lines[i], limit)))
  }

  lemma {:induction false} TrimmedAppend(done: seq<string>, a: string, b: string)
    ensures done + Trimmed(Complete(a + b)) == done + Trimmed(Complete(a)) + Trimmed(Complete(Rest(a) + b))
    ensures Rest(a + b) == Rest(Rest(a) + b)
  {
    SplitAppend(a, b);
    assert Trimmed(Complete(a + b)) == Trimmed(Complete(a)) + Trimmed(Complete(Rest(a) + b));
  }

  lemma {:induction false} NothingTrimmed(done: seq<string>)
    ensures done + Trimmed([]) == done && Complete([]) == []
  {
  }

  /** The first line of a buffer, and what is left to drain. */
  lemma {:induction false} FirstTrimmed(buffer: string)
    requires IndexLF(buffer) >= 0
    ensures var i := IndexLF(buffer);
      && Trimmed(Complete(buffer)) == [TrimRight(buffer[..i], {CR})] + Trimmed(Complete(buffer[i + 1..]))
      && Rest(buffer) == Rest(buffer[i + 1..])
  {
    hide Complete, Rest;
    SplitAtIndex(buffer);
  }

  class DockerLineWriter {
    const limit: int
    var buffer: string
    var lines: nat
    var log: seq<LogLine>          // what the handler has received

    ghost var sealed: seq<string>  // lines of the texts flushed so far
    ghost var written: string      // text written since the last flush

    ghost predicate Valid()
      reads this
    {
      && buffer == Rest(written)
      && log == Numbered(sealed + Trimmed(Complete(written)), limit)
      && lines == |log|
    }

    constructor (limit: int)
      ensures Valid() && this.limit == limit && sealed == [] && written == []
    {
      this.limit := limit;
      buffer, lines, log := [], 0, [];
      sealed, written := [], [];
    }

    method Write(p: string) returns (n: nat)
      requires Valid()
      modifies this
      ensures Valid()
      ensures n == |p| && written == old(written) + p && sealed == old(sealed)
    {
      TrimmedAppend(sealed, written, p);
      buffer := buffer + p;
      DrainCompleteLines(sealed + Trimmed(Complete(written)));
      written := written + p;
      n := |p|;
    }

    method Flush()
      requires Valid()
      modifies this
      ensures Valid()
      ensures written == [] && sealed == old(sealed) + DockerLines(old(written))
    {
      if |buffer| != 0 {
        TrimWithoutLF(buffer);
        EmitLine(TrimRight(buffer, {CR, LF}), sealed + Trimmed(Complete(written)));
        buffer := [];
      }
      sealed := sealed + DockerLines(written);
      written := [];
      assert sealed + Trimmed(Complete(written)) == sealed;
      assert sealed == old(sealed) + Trimmed(Complete(old(written)))
                       + if Rest(old(written)) == [] then [] else [TrimCR(Rest(old(written)))];
    }

    method DrainCompleteLines(ghost done: seq<string>)
      requires log == Numbered(done, limit) && lines == |log|
      modifies `buffer, `lines, `log
      ensures buffer == Rest(old(buffer))
      ensures log == Numbered(done + Trimmed(Complete(old(buffer))), limit) && lines == |log|
    {
      hide Complete, Rest, Numbered, Trimmed, TrimRight;
      ghost var all := done + Trimmed(Complete(buffer));
      ghost var now := done;
      while true
        invariant log == Numbered(now, limit) && lines == |log|
        invariant now + Trimmed(Complete(buffer)) == all
        invariant Rest(buffer) == Rest(old(buffer))
        decreases |buffer|
      {
        var idx := IndexLF(buffer);
        if idx < 0 {
          SplitWithoutLF(buffer);
          NothingTrimmed(now);
          return;
        }
        var line, remaining := TrimRight(buffer[..idx], {CR}), buffer[idx + 1..];
        FirstTrimmed(buffer);
        Associate(now, [line], Trimmed(Complete(remaining)));
        EmitLine(line, now);
        now := now + [line];
        buffer := remaining;
      }
    }

    method EmitLine(line: string, ghost done: seq<string>)
      requires log == Numbered(done, limit) && lines == |log|
      modifies `lines, `log
      ensures log == Numbered(done + [line], limit) && lines == |log|
    {
      lines := lines + 1;
      log := log + [LogLine(lines, TruncateLine(line, limit))];
    }
  }

  /** Chunk invariance: however a stream is cut into writes, the log is that of the whole text. */
  method CopyStream(chunks: seq<string>, limit: int) returns (w: DockerLineWriter)
    ensures fresh(w) && w.log == Numbered(DockerLines(Concat(chunks)), limit)
    ensures w.lines == |DockerLines(Concat(chunks))|
  {
    hide Complete, Rest, Trimmed, DockerLines;
    NothingTrimmed(DockerLines(Concat(chunks)));
    w := new DockerLineWriter(limit);
    assert Concat(chunks[..0]) == [];
    for i := 0 to |chunks|
      invariant w.Valid() && w.limit == limit && w.sealed == [] && fresh(w)
      invariant w.written == Concat(chunks[..i])
    {
      assert chunks[..i + 1][..i] == chunks[..i];
      var _ := w.Write(chunks[i]);
    }
    assert chunks[..|chunks|] == chunks;
    w.Flush();
    assert [] + DockerLines(Concat(chunks)) == DockerLines(Concat(chunks));
  }

  /** Stripping the carriage returns at the end of `seg` leaves its first `m` characters. */
  predicate Leaves(seg: string, m: nat) {
    m <= |seg| && (m > 0 ==> seg[m - 1] != CR) && forall j :: m <= j < |seg| ==> seg[j] == CR
  }

  /** Line numbers are 1..n, no emitted line holds a line feed, and each line is its segment of the
      text without the carriage returns at the end, cut at the limit. */
  lemma {:induction false} DockerLinesAccountForText(text: string, limit: int)
    ensures var log := Numbered(DockerLines(text), limit);
            var segs := Complete(text) + if Rest(text) == [] then [] else [Rest(text)];
            && |log| == |segs|
            && Ended(Complete(text)) + Rest(text) == text
            && forall k :: 0 <= k < |log| ==>
                 var m := |TrimCR(segs[k])|;
                 && log[k].number == k + 1 && LF !in log[k].text
                 && Leaves(segs[k], m)
                 && log[k].text == segs[k][..if 0 < limit < m then limit else m]
  {
    hide Complete, Rest, Ended;
    SplitRebuilds(text);
    var segs := Complete(text) + if Rest(text) == [] then [] else [Rest(text)];
    assert DockerLines(text) == Trimmed(segs);
    forall k | 0 <= k < |segs| ensures Leaves(segs[k], |TrimCR(segs[k])|) {
      assert TrimCR(segs[k]) <= segs[k];
    }
  }
}
