/** The consumer loop of the backend executor: it numbers the log lines of each stream and,
    when it leaves, reads the status of the command. */
module LogConsumer {
  import opened Wrappers
  import opened TextLines

  const STDOUT := "stdout"
  const STDERR := "stderr"

  datatype LogChunk = LogChunk(stream: string, line: string)

  /** Standard error has a counter of its own; every other stream name shares the other one. */
  predicate IsErr(stream: string) {
    stream == STDERR
  }

  /** A chunk as the two streaming sides build it. */
  function ChunkOf(isErr: bool, line: string): (chunk: LogChunk)
    ensures chunk == LogChunk(if isErr then "stderr" else "stdout", line) && IsErr(chunk.stream) == isErr
  {
    LogChunk(if isErr then STDERR else STDOUT, line)
  }

  datatype LogRecord = LogRecord(stream: string, lineNo: nat, line: string)

  /** One way out of the select statement. */
  datatype Selected = Chunk(chunk: LogChunk) | LogsClosed | ContextDone

  datatype Consumed = Consumed(stdoutLines: nat, stderrLines: nat, records: seq<LogRecord>)

  const NOTHING_CONSUMED := Consumed(0, 0, [])

  function Consume(c: Consumed, chunk: LogChunk, limit: int): Consumed {
    var isErr := IsErr(chunk.stream);
    var n := 1 + if isErr then c.stderrLines else c.stdoutLines;
    var record := LogRecord(chunk.stream, n, TruncateLine(chunk.line, limit));
    Consumed(if isErr then c.stdoutLines else n, if isErr then n else c.stderrLines, c.records + [record])
  }

  function ConsumeAll(chunks: seq<LogChunk>, limit: int): Consumed {
    if chunks == [] then NOTHING_CONSUMED
    else Consume(ConsumeAll(chunks[..|chunks| - 1], limit), chunks[|chunks| - 1], limit)
  }

  lemma {:induction false} NothingConsumed(limit: int)
    ensures ConsumeAll([], limit) == NOTHING_CONSUMED
  {
  }

  /** The chunks delivered before the loop is left. */
  function Delivered(selected: seq<Selected>): seq<LogChunk> {
    if selected == [] || !selected[0].Chunk? then [] else [selected[0].chunk] + Delivered(selected[1..])
  }

  lemma {:induction false} ConsumeAllSnoc(chunks: seq<LogChunk>, chunk: LogChunk, limit: int)
    ensures ConsumeAll(chunks + [chunk], limit) == Consume(ConsumeAll(chunks, limit), chunk, limit)
  {
    assert (chunks + [chunk])[..|chunks|] == chunks;
  }

  /** The chunks up to the first thing selected that is none. */
  lemma {:induction false} DeliveredMeans(selected: seq<Selected>)
    ensures var chunks := Delivered(selected);
      && |chunks| <= |selected| && (forall k :: 0 <= k < |chunks| ==> selected[k] == Chunk(chunks[k]))
      && (|chunks| < |selected| ==> !selected[|chunks|].Chunk?)
  {
    if selected != [] && selected[0].Chunk? {
      DeliveredMeans(selected[1..]);
    }
  }

  lemma {:induction false} NothingDelivered(selected: seq<Selected>)
    requires selected == [] || !selected[0].Chunk?
    ensures Delivered(selected) == []
  {
  }

  lemma {:induction false} NextDelivered(selected: seq<Selected>, i: nat)
    requires i < |selected| && selected[i].Chunk?
    ensures Delivered(selected[i..]) == [selected[i].chunk] + Delivered(selected[i + 1..])
  {
    assert selected[i..][1..] == selected[i + 1..];
  }

  /** The loop itself, over the outcomes its select statement had. */
  method ConsumeLogs(selected: seq<Selected>, limit: int) returns (c: Consumed, interrupted: bool)
    ensures c == ConsumeAll(Delivered(selected), limit)
    ensures interrupted <==> |Delivered(selected)| < |selected| && selected[|Delivered(selected)|].ContextDone?
  {
    hide Delivered, ConsumeAll, IsErr, TruncateLine;
    NothingConsumed(limit);
    assert selected[0..] == selected && [] + Delivered(selected) == Delivered(selected);
    var stdoutLines, stderrLines, records: seq<LogRecord> := 0, 0, [];
    interrupted := false;
    var i := 0;
    ghost var chunks: seq<LogChunk> := [];
    while i < |selected|
      invariant 0 <= i <= |selected| && !interrupted && |chunks| == i
      invariant chunks + Delivered(selected[i..]) == Delivered(selected)
      invariant Consumed(stdoutLines, stderrLines, records) == ConsumeAll(chunks, limit)
    {
      match selected[i]
      case ContextDone =>
        interrupted := true;
        break;
      case LogsClosed =>
        break;
      case Chunk(chunk) =>
        var lineNo := 0;
        if IsErr(chunk.stream) {
          stderrLines := stderrLines + 1;
          lineNo := stderrLines;
        } else {
          stdoutLines := stdoutLines + 1;
          lineNo := stdoutLines;
        }
        records := records + [LogRecord(chunk.stream, lineNo, TruncateLine(chunk.line, limit))];
        ConsumeAllSnoc(chunks, chunk, limit);
        NextDelivered(selected, i);
        Associate(chunks, [chunk], Delivered(selected[i + 1..]));
        chunks := chunks + [chunk];
        i := i + 1;
    }
    NothingDelivered(selected[i..]);
    assert chunks == Delivered(selected);
    c := Consumed(stdoutLines, stderrLines, records);
  }

  // ---- what the numbers mean ----

  /** The lines of one counter: standard error, or everything else. */
  function Lines(chunks: seq<LogChunk>, isErr: bool): seq<string> {
    if chunks == [] then []
    else
      var front, c := chunks[..|chunks| - 1], chunks[|chunks| - 1];
      if IsErr(c.stream) == isErr then Lines(front, isErr) + [c.line] else Lines(front, isErr)
  }

  function RecordsOf(records: seq<LogRecord>, isErr: bool): seq<LogRecord> {
    if records == [] then []
    else
      var front, r := records[..|records| - 1], records[|records| - 1];
      if IsErr(r.stream) == isErr then RecordsOf(front, isErr) + [r] else RecordsOf(front, isErr)
  }

  lemma {:induction false} RecordsOfSnoc(records: seq<LogRecord>, r: LogRecord, isErr: bool)
    ensures RecordsOf(records + [r], isErr)
         == if IsErr(r.stream) == isErr then RecordsOf(records, isErr) + [r] else RecordsOf(records, isErr)
  {
    assert (records + [r])[..|records|] == records;
  }

  /** One record for each chunk, in the order of arrival. */
  lemma {:induction false} RecordsFollowChunks(chunks: seq<LogChunk>, limit: int)
    ensures var records := ConsumeAll(chunks, limit).records;
      && |records| == |chunks|
      && forall k :: 0 <= k < |chunks| ==>
           records[k].stream == chunks[k].stream && records[k].line == TruncateLine(chunks[k].line, limit)
  {
    hide TruncateLine, IsErr;
    if chunks != [] {
      RecordsFollowChunks(chunks[..|chunks| - 1], limit);
    }
  }

  /** Each stream is numbered 1..n in arrival order, n is its counter, and no line is lost. */
  lemma {:induction false} NumbersAreConsecutive(chunks: seq<LogChunk>, limit: int, isErr: bool)
    ensures var c := ConsumeAll(chunks, limit);
            var rs, ls := RecordsOf(c.records, isErr), Lines(chunks, isErr);
            && |rs| == |ls| == (if isErr then c.stderrLines else c.stdoutLines)
            && forall k :: 0 <= k < |rs| ==> rs[k].lineNo == k + 1 && rs[k].line == TruncateLine(ls[k], limit)
  {
    hide IsErr, TruncateLine, RecordsOf, Lines, ConsumeAll;
    if chunks == [] {
      NothingOf(isErr);
      NothingConsumed(limit);
    } else {
      var front, chunk := chunks[..|chunks| - 1], chunks[|chunks| - 1];
      assert chunks == front + [chunk];
      NumbersAreConsecutive(front, limit, isErr);
      ConsumeAllSnoc(front, chunk, limit);
      var before, after := ConsumeAll(front, limit), ConsumeAll(chunks, limit);
      RecordsOfSnoc(before.records, after.records[|before.records|], isErr);
      LinesOfSnoc(front, chunk, isErr);
    }
  }

  lemma {:induction false} NothingOf(isErr: bool)
    ensures RecordsOf([], isErr) == [] && Lines([], isErr) == []
  {
  }

  lemma {:induction false} LinesOfSnoc(chunks: seq<LogChunk>, chunk: LogChunk, isErr: bool)
    ensures Lines(chunks + [chunk], isErr)
         == if IsErr(chunk.stream) == isErr then Lines(chunks, isErr) + [chunk.line] else Lines(chunks, isErr)
  {
    assert (chunks + [chunk])[..|chunks|] == chunks;
  }

  lemma {:induction false} LinesOfAppend(a: seq<LogChunk>, b: seq<LogChunk>, isErr: bool)
    ensures Lines(a + b, isErr) == Lines(a, isErr) + Lines(b, isErr)
  {
    hide Lines, IsErr;
    NothingOf(isErr);
    if b == [] {
      assert a + b == a;
    } else {
      var front, c := b[..|b| - 1], b[|b| - 1];
      assert b == front + [c] && a + b == (a + front) + [c];
      LinesOfAppend(a, front, isErr);
      LinesOfSnoc(a + front, c, isErr);
      LinesOfSnoc(front, c, isErr);
    }
  }
}
