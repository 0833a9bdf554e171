/** What holds of every run of the OpenSandbox exec session. */
module OpenSandboxRuns {
  import opened TextLines
  import opened LogConsumer
  import opened Wrappers
  import opened Reassembly
  import opened OpenSandboxExec

  lemma {:induction false} StartKeepsInv(events: seq<Event>, end: StreamEnd)
    ensures Inv(Start(events, end))
  {
    var s := Start(events, end);
    forall i: bool ensures StreamInv(s, i) {
      assert Remaining(s, i) == StreamText(events, i) by { assert events[0..] == events; }
      assert "" + Remaining(s, i) == Remaining(s, i);
      assert Sent(s) + s.lines == [];
    }
  }

  // ---- the text of a stream, in terms of the events ----

  /** A line and its line feed; nothing for an empty line. */
  function WithLF(line: string): string {
    if line == "" then "" else line + [LF]
  }

  function WithLFs(lines: seq<string>): string {
    if lines == [] then "" else WithLF(lines[0]) + WithLFs(lines[1..])
  }

  /** Text events add to their own stream; an error adds its message and its traceback, line by line, to
      standard error; other events add nothing. */
  function WholeText(events: seq<Event>, isErr: bool): string {
    if events == [] then ""
    else
      (match events[0]
       case Text(toErr, text) => if toErr == isErr then text else ""
       case Failure(message, _, traceback) => if isErr then WithLF(message) + WithLFs(traceback) else ""
       case Init(_) => ""
       case Ignored => "")
      + WholeText(events[1..], isErr)
  }

  lemma {:induction false} TextOfTrace(traceback: seq<string>, isErr: bool)
    ensures TextOf(TraceWrites(traceback), isErr) == if isErr then WithLFs(traceback) else ""
  {
    if traceback != [] {
      TextOfTrace(traceback[1..], isErr);
      var w := Write(true, traceback[0] + [LF]);
      assert ([w] + TraceWrites(traceback[1..]))[1..] == TraceWrites(traceback[1..]);
      assert [] + TraceWrites(traceback[1..]) == TraceWrites(traceback[1..]);
      assert [] + TextOf(TraceWrites(traceback[1..]), isErr) == TextOf(TraceWrites(traceback[1..]), isErr);
    }
  }

  lemma {:induction false} TextOfOne(w: Write, more: seq<Write>, isErr: bool)
    ensures TextOf([w] + more, isErr) == (if w.isErr == isErr then w.text else []) + TextOf(more, isErr)
  {
    assert ([w] + more)[1..] == more;
  }

  lemma {:induction false} TextOfEvent(e: Event, isErr: bool)
    ensures TextOf(Writes(e), isErr)
      == match e
         case Text(toErr, text) => if toErr == isErr then text else ""
         case Failure(message, _, traceback) => if isErr then WithLF(message) + WithLFs(traceback) else ""
         case Init(_) => ""
         case Ignored => ""
  {
    hide TraceWrites, WithLFs;
    match e {
      case Text(toErr, text) =>
        TextOfOne(Write(toErr, text), [], isErr);
        assert [Write(toErr, text)] + [] == [Write(toErr, text)] && text + "" == text;
      case Failure(message, _, traceback) =>
        TextOfTrace(traceback, isErr);
        TextOfOne(Write(true, message + [LF]), TraceWrites(traceback), isErr);
        assert [] + TraceWrites(traceback) == TraceWrites(traceback);
      case Init(_) =>
      case Ignored =>
    }
  }

  /** What the emitter is given of a stream is its whole text. */
  lemma {:induction false} StreamTextIs(events: seq<Event>, isErr: bool)
    ensures StreamText(events, isErr) == WholeText(events, isErr)
  {
    hide Writes, TextOf;
    if events != [] {
      StreamTextIs(events[1..], isErr);
      TextOfEvent(events[0], isErr);
    }
  }

  // ---- progress ----

  function WriteCost(ws: seq<Write>): nat {
    if ws == [] then 0 else 1 + 2 * |ws[0].text| + WriteCost(ws[1..])
  }

  function EventCost(events: seq<Event>): nat {
    if events == [] then 0 else 2 + WriteCost(Writes(events[0])) + EventCost(events[1..])
  }

  function Stage(p: Producer): nat {
    match p
    case Scanning => 10
    case InitReady(_) => 11
    case ErrReady(_) => 2
    case FlushingOut => 6
    case FlushingErr => 3
    case Closing => 1
    case Stopped => 0
  }

  /** A bound on the number of steps that can still be taken. */
  function Rank(s: State): nat {
    EventCost(Unread(s)) + WriteCost(s.writes) + 2 * |s.lines| + |s.queue| + Stage(s.producer)
    + (match s.caller case Selecting => 2 case Consuming(_) => 1 case _ => 0)
    + (if s.context.Live? then 1 else 0)
  }

  lemma {:induction false} TaggedLength(lines: seq<string>, isErr: bool)
    ensures |Tagged(lines, isErr)| == |lines|
  {
    if lines != [] {
      TaggedLength(lines[..|lines| - 1], isErr);
    }
  }

  lemma {:induction false} TakenBound(buf: string, text: string, isErr: bool)
    requires LF !in buf
    ensures |Tagged(Kept(Complete(buf + text)), isErr)| <= |text|
    ensures |Tagged(Line(buf), isErr)| <= 1
  {
    CompleteBound(buf, text);
    KeptBound(Complete(buf + text));
    TaggedLength(Kept(Complete(buf + text)), isErr);
    TaggedLength(Line(buf), isErr);
  }

  lemma {:induction false} StepLowersRank(s: State, a: Action)
    requires ControlInv(s) && HandshakeInv(s) && LF !in s.outBuf && LF !in s.errBuf && Enabled(s, a)
    ensures Apply(s, a).next <= |s.events| && Apply(s, a).events == s.events
    ensures Rank(Apply(s, a)) < Rank(s)
  {
    match a
    case Read => ReadLowersRank(s);
    case WriteText => WriteLowersRank(s);
    case EndOfStream => EndLowersRank(s);
    case FlushNext => FlushLowersRank(s);
    case _ => OtherLowersRank(s, a);
  }

  lemma {:induction false} WriteLowersRank(s: State)
    requires s.next <= |s.events| && LF !in s.outBuf && LF !in s.errBuf && Enabled(s, WriteText)
    ensures Rank(Apply(s, WriteText)) < Rank(s)
  {
    TakenBound(Buf(s, s.writes[0].isErr), s.writes[0].text, s.writes[0].isErr);
  }

  lemma {:induction false} EndLowersRank(s: State)
    requires LF !in s.outBuf && Enabled(s, EndOfStream)
    ensures Rank(Apply(s, EndOfStream)) < Rank(s)
  {
    hide EventCost, WriteCost, Kept, Line, Complete, Rest, Tagged, Writes;
    TakenBound(s.outBuf, "", false);
  }

  lemma {:induction false} FlushLowersRank(s: State)
    requires s.next <= |s.events| && LF !in s.errBuf && Enabled(s, FlushNext)
    ensures Rank(Apply(s, FlushNext)) < Rank(s)
  {
    hide EventCost, WriteCost, Kept, Line, Complete, Rest, Tagged, Writes;
    TakenBound(s.errBuf, "", true);
  }

  lemma {:induction false} OtherLowersRank(s: State, a: Action)
    requires ControlInv(s) && HandshakeInv(s) && Enabled(s, a)
    requires !a.Read? && !a.WriteText? && !a.EndOfStream? && !a.FlushNext?
    ensures Apply(s, a).next == s.next && Apply(s, a).events == s.events && WriteCost(Apply(s, a).writes) <= WriteCost(s.writes)
    ensures Rank(Apply(s, a)) < Rank(s)
  {
    hide EventCost, Kept, Line, Complete, Rest, Tagged, Writes;
    assert WriteCost([]) == 0;
  }

  lemma {:induction false} ReadLowersRank(s: State)
    requires Enabled(s, Read)
    ensures Rank(Apply(s, Read)) < Rank(s)
  {
    var e, rest, s' := s.events[s.next], s.events[s.next..], Apply(s, Read);
    assert rest[0] == e && rest[1..] == s.events[s.next + 1..];
    assert EventCost(rest) == 2 + WriteCost(Writes(e)) + EventCost(s.events[s.next + 1..]);
    hide EventCost, WriteCost, Writes, Apply;
    ReadResult(s);
  }

  // ---- lines that come before the init event ----

  /** The events before the first init event that carries an id. */
  function BeforeFirstInit(events: seq<Event>): seq<Event> {
    if events == [] || IsInit(events[0]) then [] else [events[0]] + BeforeFirstInit(events[1..])
  }

  /** How many lines, blank ones left out, the line feeds of a text end. */
  function EndedLines(text: string): nat {
    |Kept(Complete(text))|
  }

  /** The lines that the two texts written before the init event end. */
  function PreInitLines(events: seq<Event>): nat {
    EndedLines(WholeText(BeforeFirstInit(events), false)) + EndedLines(WholeText(BeforeFirstInit(events), true))
  }

  /** The same number, counted as the writer goes: what the buffers, the writes of the current event,
      and the events still to be read yield. */
  function Pending(outBuf: string, errBuf: string, writes: seq<Write>, events: seq<Event>): nat
    decreases |events|, |writes|
  {
    if writes != [] then
      var w := writes[0];
      var all := (if w.isErr then errBuf else outBuf) + w.text;
      |Kept(Complete(all))|
      + (if w.isErr then Pending(outBuf, Rest(all), writes[1..], events)
         else Pending(Rest(all), errBuf, writes[1..], events))
    else if events == [] || IsInit(events[0]) then 0
    else Pending(outBuf, errBuf, Writes(events[0]), events[1..])
  }

  lemma {:induction false} EndedLinesResume(a: string, b: string)
    ensures EndedLines(a + b) == EndedLines(a) + EndedLines(Rest(a) + b)
  {
    hide Complete, Rest, Kept;
    SplitAppend(a, b);
    KeptAppend(Complete(a), Complete(Rest(a) + b));
  }

  lemma {:induction false} NoLineEnded(buf: string)
    requires LF !in buf
    ensures EndedLines(buf + "") == 0 && Rest(buf + "") == buf
  {
    assert buf + "" == buf;
    SplitWithoutLF(buf);
  }

  /** One more write, on either stream. */
  lemma {:induction false} WriteEnds(buf: string, text: string, more: string)
    ensures EndedLines(buf + (text + more)) == EndedLines(buf + text) + EndedLines(Rest(buf + text) + more)
  {
    assert buf + (text + more) == (buf + text) + more;
    EndedLinesResume(buf + text, more);
  }

  lemma {:induction false} PendingIsCounted(outBuf: string, errBuf: string, ws: seq<Write>, events: seq<Event>)
    requires LF !in outBuf && LF !in errBuf
    ensures Pending(outBuf, errBuf, ws, events)
      == EndedLines(outBuf + (TextOf(ws, false) + StreamText(BeforeFirstInit(events), false)))
       + EndedLines(errBuf + (TextOf(ws, true) + StreamText(BeforeFirstInit(events), true)))
    decreases |events|, |ws|
  {
    hide Complete, Rest, Kept, EndedLines, Writes, StreamText;
    var outMore, errMore := StreamText(BeforeFirstInit(events), false), StreamText(BeforeFirstInit(events), true);
    if ws != [] {
      var w, later := ws[0], ws[1..];
      var all := (if w.isErr then errBuf else outBuf) + w.text;
      PendingOfWrite(outBuf, errBuf, ws, events);
      PendingIsCounted(if w.isErr then outBuf else Rest(all), if w.isErr then Rest(all) else errBuf, later, events);
      TextOfWrites(ws, false, outMore);
      TextOfWrites(ws, true, errMore);
      WriteEnds(if w.isErr then errBuf else outBuf, w.text, TextOf(later, w.isErr) + if w.isErr then errMore else outMore);
    } else {
      assert TextOf(ws, false) == "" && TextOf(ws, true) == "";
      assert "" + outMore == outMore && "" + errMore == errMore;
      if events == [] || IsInit(events[0]) {
        NothingIsWritten(false);
        NothingIsWritten(true);
        NoLineEnded(outBuf);
        NoLineEnded(errBuf);
      } else {
        PendingIsCounted(outBuf, errBuf, Writes(events[0]), events[1..]);
        TextBeforeInit(events, false);
        TextBeforeInit(events, true);
      }
    }
  }

  lemma {:induction false} PendingOfWrite(outBuf: string, errBuf: string, ws: seq<Write>, events: seq<Event>)
    requires ws != []
    ensures var w := ws[0]; var all := (if w.isErr then errBuf else outBuf) + w.text;
      Pending(outBuf, errBuf, ws, events)
      == EndedLines(all) + Pending(if w.isErr then outBuf else Rest(all), if w.isErr then Rest(all) else errBuf, ws[1..], events)
  {
    hide Complete, Rest, Kept;
  }

  lemma {:induction false} TextOfWrites(ws: seq<Write>, i: bool, more: string)
    requires ws != []
    ensures TextOf(ws, i) + more
      == if ws[0].isErr == i then ws[0].text + (TextOf(ws[1..], i) + more) else TextOf(ws[1..], i) + more
  {
    if ws[0].isErr == i {
      Associate(ws[0].text, TextOf(ws[1..], i), more);
    } else {
      assert [] + TextOf(ws[1..], i) == TextOf(ws[1..], i);
    }
  }

  lemma {:induction false} NothingIsWritten(i: bool)
    ensures StreamText([], i) == ""
  {
  }

  lemma {:induction false} TextBeforeInit(events: seq<Event>, i: bool)
    requires events != [] && !IsInit(events[0])
    ensures StreamText(BeforeFirstInit(events), i)
      == TextOf(Writes(events[0]), i) + StreamText(BeforeFirstInit(events[1..]), i)
  {
    assert BeforeFirstInit(events)[1..] == BeforeFirstInit(events[1..]);
  }

  predicate BeforeInit(s: State) {
    s.producer.Scanning? && !s.initSent
  }

  /** Until the init event, the lines on the channel, pending and to come are constant. */
  predicate PreInv(s: State) {
    BeforeInit(s) ==>
      |s.queue| + |s.lines| + Pending(s.outBuf, s.errBuf, s.writes, Unread(s)) == PreInitLines(s.events)
  }

  lemma {:induction false} StartKeepsPreInv(events: seq<Event>, end: StreamEnd)
    ensures PreInv(Start(events, end))
  {
    hide StreamText, WholeText, Complete, Rest, Kept;
    PendingIsCounted("", "", [], events);
    StreamTextIs(BeforeFirstInit(events), false);
    StreamTextIs(BeforeFirstInit(events), true);
    forall i: bool ensures "" + (TextOf([], i) + StreamText(BeforeFirstInit(events), i)) == StreamText(BeforeFirstInit(events), i) {
    }
    assert events[0..] == events;
  }

  lemma {:induction false} ReadKeepsPreInv(s: State)
    requires PreInv(s) && Enabled(s, Read)
    ensures ApplyRead(s).next <= |ApplyRead(s).events| && PreInv(ApplyRead(s))
  {
    hide Complete, Rest, Kept, PreInitLines, TextOf, StreamText, Writes;
    assert s.events[s.next..][1..] == s.events[s.next + 1..];
    assert s.events[s.next..][0] == s.events[s.next];
  }

  lemma {:induction false} WriteKeepsPreInv(s: State)
    requires PreInv(s) && s.next <= |s.events| && Enabled(s, WriteText)
    ensures ApplyWrite(s).next <= |ApplyWrite(s).events| && PreInv(ApplyWrite(s))
  {
    hide Complete, Rest, Kept, PreInitLines, TextOf, StreamText;
    var w := s.writes[0];
    TaggedLength(Kept(Complete(Buf(s, w.isErr) + w.text)), w.isErr);
  }

  lemma {:induction false} StepKeepsPreInv(s: State, a: Action)
    requires ControlInv(s) && HandshakeInv(s) && PreInv(s) && Enabled(s, a)
    ensures Apply(s, a).next <= |Apply(s, a).events| && PreInv(Apply(s, a))
  {
    hide Complete, Rest, Kept, PreInitLines, TextOf, StreamText, Pending, Writes, ApplyRead, ApplyWrite;
    match a
    case Read => ReadKeepsPreInv(s);
    case WriteText => WriteKeepsPreInv(s);
    case _ =>
  }

  // ---- whole runs ----

  lemma {:induction false} ScheduleKeepsInv(events: seq<Event>, end: StreamEnd, acts: seq<Action>)
    requires Feasible(Start(events, end), acts)
    ensures var s := After(Start(events, end), acts);
      && Inv(s) && PreInv(s) && s.events == events
      && Rank(s) + |acts| <= EventCost(events) + 13
  {
    if acts == [] {
      StartKeepsInv(events, end);
      StartKeepsPreInv(events, end);
      assert events[0..] == events;
    } else {
      ScheduleKeepsInv(events, end, Front(acts));
      var s, a := After(Start(events, end), Front(acts)), acts[|acts| - 1];
      StepKeepsInv(s, a);
      StepKeepsPreInv(s, a);
      StepLowersRank(s, a);
    }
  }

  /** The handshake in every interleaving: at most one value is ever sent on the two channels, so
      neither send blocks; exactly one when the stream ends uncancelled; the log channel is
      closed at most once and never written afterwards. */
  lemma {:induction false} HandshakeIsSafe(events: seq<Event>, end: StreamEnd, acts: seq<Action>)
    requires Feasible(Start(events, end), acts)
    ensures var s := After(Start(events, end), acts);
      && s.initSends + s.errSends <= 1
      && (s.producer.InitReady? ==> Enabled(s, SendInit))
      && (s.producer.ErrReady? ==> Enabled(s, SendErr))
      && (s.producer.Stopped? && s.context.Live? ==> s.initSends + s.errSends == 1)
      && (s.caller.Consuming? || s.caller.LeftLoop? ==> s.initSends == 1)
      && (s.caller.Failed? ==> s.errSends == 1)
      && !s.panicked && s.session.closes == (if s.producer.Stopped? then 1 else 0)
  {
    ScheduleKeepsInv(events, end, acts);
  }

  /** In every interleaving the lines received of a stream are a prefix of the lines of its whole
      text, however it was cut into events; they are all of them once the consumer has seen the
      close of an uncancelled session. */
  lemma {:induction false} LinesAreThoseOfTheText(events: seq<Event>, end: StreamEnd, acts: seq<Action>, isErr: bool)
    requires Feasible(Start(events, end), acts)
    ensures var s, whole := After(Start(events, end), acts), Output(WholeText(events, isErr));
      && Lines(s.received, isErr) <= whole
      && LF !in Buf(s, isErr)
      && (s.caller == LeftLoop(true) && s.context.Live? ==> Lines(s.received, isErr) == whole)
  {
    hide Output, WholeText, StreamText;
    ScheduleKeepsInv(events, end, acts);
    InvDelivers(After(Start(events, end), acts), isErr);
    StreamTextIs(events, isErr);
  }

  lemma {:induction false} InvDelivers(s: State, isErr: bool)
    requires LocalInv(s, isErr)
    ensures var whole := Output(StreamText(s.events, isErr));
      && Lines(s.received, isErr) <= whole
      && (s.caller == LeftLoop(true) && s.context.Live? ==> Lines(s.received, isErr) == whole)
  {
    hide Output, Lines;
    AbandonLeavesPrefix(s, isErr);
    LinesOfAppend(s.received, s.queue, isErr);
    if s.caller == LeftLoop(true) && s.context.Live? {
      assert Sent(s) + s.lines == s.received;
      assert Buf(s, isErr) + Remaining(s, isErr) == "";
      OutputOfNothing();
    }
  }

  // ---- deadlock ----

  /** Nothing but the end of the context can happen, and something is still to be done. */
  ghost predicate Stuck(s: State) {
    !Terminal(s) && forall a: Action :: a != EndContext ==> !Enabled(s, a)
  }

  ghost predicate CanDeadlock(events: seq<Event>, end: StreamEnd) {
    exists acts :: Feasible(Start(events, end), acts) && Stuck(After(Start(events, end), acts))
  }

  /** The only way to be stuck: `Exec` waits for the init event, which waits behind a full channel. */
  predicate Wedged(s: State) {
    && s.caller.Selecting? && s.context.Live? && BeforeInit(s)
    && s.lines != [] && |s.queue| == CAPACITY
  }

  lemma {:induction false} SomeStepIsEnabled(s: State) returns (a: Action)
    requires ControlInv(s) && HandshakeInv(s) && !Terminal(s) && !Wedged(s)
    ensures Enabled(s, a) && a != EndContext
  {
    if s.caller.Selecting? && (s.initCh != [] || s.errCh != [] || s.context.Done?) {
      a := if s.initCh != [] then TakeInit else if s.errCh != [] then TakeErr else SeeContext;
    } else if s.caller.Consuming? && s.queue != [] {
      a := Receive;
    } else if s.lines != [] {
      a := if s.context.Done? then Abandon else Emit;
    } else {
      a := match s.producer
           case Scanning => if s.writes != [] then WriteText else if s.next < |s.events| then Read else EndOfStream
           case InitReady(_) => SendInit
           case ErrReady(_) => SendErr
           case FlushingOut => FlushNext
           case FlushingErr => FlushDone
           case Closing => Close
           case Stopped => SeeClosed;
    }
  }

  lemma {:induction false} WedgedIsStuck(s: State)
    requires ControlInv(s) && HandshakeInv(s) && Wedged(s)
    ensures Stuck(s)
  {
  }

  predicate Waiting(s: State) {
    s.caller.Selecting? && s.context.Live? && BeforeInit(s)
  }

  lemma {:induction false} StepTowardsWedge(s: State) returns (a: Action)
    requires ControlInv(s) && HandshakeInv(s) && PreInv(s)
    requires Waiting(s) && !Wedged(s) && PreInitLines(s.events) > CAPACITY
    ensures Enabled(s, a) && Waiting(Apply(s, a))
  {
    a := if s.lines != [] then Emit else if s.writes != [] then WriteText else Read;
    if a.Read? {
      assert s.events[s.next..] != [];
      assert s.events[s.next..][0] == s.events[s.next];
    }
  }

  lemma {:induction false} WedgeIsReached(events: seq<Event>, end: StreamEnd, acts: seq<Action>) returns (more: seq<Action>)
    requires Feasible(Start(events, end), acts)
    requires Waiting(After(Start(events, end), acts))
    requires PreInitLines(events) > CAPACITY
    ensures Feasible(Start(events, end), more) && Wedged(After(Start(events, end), more))
    decreases EventCost(events) + 13 - |acts|
  {
    var s := After(Start(events, end), acts);
    ScheduleKeepsInv(events, end, acts);
    if Wedged(s) {
      more := acts;
    } else {
      var a := StepTowardsWedge(s);
      var longer := acts + [a];
      assert Front(longer) == acts;
      ScheduleKeepsInv(events, end, longer);
      more := WedgeIsReached(events, end, longer);
    }
  }

  /** The session can deadlock exactly when more lines than the channel holds come before the
      init event. */
  lemma {:induction false} DeadlockCondition(events: seq<Event>, end: StreamEnd)
    ensures CanDeadlock(events, end) <==> PreInitLines(events) > 64
  {
    var s0 := Start(events, end);
    if PreInitLines(events) > CAPACITY {
      assert Feasible(s0, []);
      var acts := WedgeIsReached(events, end, []);
      ScheduleKeepsInv(events, end, acts);
      WedgedIsStuck(After(s0, acts));
    }
    if CanDeadlock(events, end) {
      var acts :| Feasible(s0, acts) && Stuck(After(s0, acts));
      var s := After(s0, acts);
      ScheduleKeepsInv(events, end, acts);
      if !Wedged(s) {
        var a := SomeStepIsEnabled(s);
      }
    }
  }

  function ManyLines(n: nat): string {
    if n == 0 then "" else ManyLines(n - 1) + ['x', LF]
  }

  lemma {:induction false} OneMoreLine(before: string)
    requires Rest(before) == ""
    ensures EndedLines(before + ['x', LF]) == EndedLines(before) + 1 && Rest(before + ['x', LF]) == ""
  {
    hide Complete, Rest, Kept, TrimRight;
    SplitSnoc(before, 'x');
    SplitSnoc(before + ['x'], LF);
    assert before + ['x', LF] == before + ['x'] + [LF] && "" + ['x'] == "x";
    KeptSnoc(Complete(before), "x");
    assert TrimCR("x") == "x" by {
      assert Last("x") == 'x';
    }
  }

  lemma {:induction false} ManyLinesEnd(n: nat)
    ensures EndedLines(ManyLines(n)) == n && Rest(ManyLines(n)) == ""
  {
    hide Complete, Rest, Kept, EndedLines;
    if n == 0 {
      NoLineEnded("");
      assert "" + "" == "";
    } else {
      ManyLinesEnd(n - 1);
      OneMoreLine(ManyLines(n - 1));
    }
  }

  lemma {:induction false} OneText(text: string, i: bool)
    ensures WholeText([Text(false, text)], i) == if i then "" else text
  {
    assert [Text(false, text)][1..] == [];
    assert text + "" == text;
  }

  /** For a text of n lines ahead of the init event the bound is the capacity of the channel. */
  lemma {:induction false} LinesAheadOfInit(n: nat, id: string, end: StreamEnd)
    requires id != ""
    ensures CanDeadlock([Text(false, ManyLines(n)), Init(id)], end) <==> n > 64
  {
    var text, init := Text(false, ManyLines(n)), Init(id);
    var events := [text, init];
    assert events[1..] == [init] && BeforeFirstInit(events) == [text];
    hide CanDeadlock, Complete, Kept;
    OneText(ManyLines(n), false);
    OneText(ManyLines(n), true);
    assert "" + "" == "";
    ManyLinesEnd(n);
    NoLineEnded("");
    DeadlockCondition(events, end);
  }

  /** Every run is finite, and one that cannot be continued has stopped the goroutine and the
      caller, unless it is wedged. */
  lemma {:induction false} EveryRunTerminates(events: seq<Event>, end: StreamEnd, acts: seq<Action>)
    requires Feasible(Start(events, end), acts)
    ensures |acts| <= EventCost(events) + 13
    ensures var s := After(Start(events, end), acts);
      (forall a: Action :: a != EndContext ==> !Enabled(s, a)) ==> Terminal(s) || Wedged(s)
  {
    ScheduleKeepsInv(events, end, acts);
    var s := After(Start(events, end), acts);
    if !Terminal(s) && !Wedged(s) {
      var a := SomeStepIsEnabled(s);
    }
  }
}
