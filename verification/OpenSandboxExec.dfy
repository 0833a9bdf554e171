/** The OpenSandbox exec session: a goroutine that decodes an event stream, reports the command
    id or an error over two one-slot channels, reassembles log lines and emits them on a bounded
    channel; `Exec`, which waits for the id, the error or the context; and the executor's
    consumer loop, which starts only once `Exec` has returned a handle.

    As for the local session, the decoded events and the way the stream ends are fixed in
    advance, and a schedule picks any enabled action.
 */
module OpenSandboxExec {
  import opened TextLines
  import opened LogConsumer
  import opened Wrappers
  import opened Reassembly

  const CAPACITY := 64

  // ---- events ----

  /** A decoded stream event; events of other types are `Ignored`.  In a `Failure`, `message` is
      the provider error's name and value joined, `code` its value when that is a number. */
  datatype Event =
    | Init(id: string)
    | Text(isErr: bool, text: string)
    | Failure(message: string, code: Option<int>, traceback: seq<string>)
    | Ignored

  /** What `Exec` is told instead of a command id. */
  datatype StreamError = ReadFailed(message: string) | MissingInitEvent

  datatype StreamEnd = Eof | ReadCanceled | ReadError(message: string)

  /** One call of the line emitter. */
  datatype Write = Write(isErr: bool, text: string)

  function TraceWrites(traceback: seq<string>): seq<Write> {
    if traceback == [] then []
    else (if traceback[0] == "" then [] else [Write(true, traceback[0] + [LF])]) + TraceWrites(traceback[1..])
  }

  function Writes(e: Event): seq<Write> {
    match e
    case Text(isErr, text) => [Write(isErr, text)]
    case Failure(message, _, traceback) =>
      (if message == "" then [] else [Write(true, message + [LF])]) + TraceWrites(traceback)
    case _ => []
  }

  predicate IsInit(e: Event) {
    e.Init? && e.id != ""
  }

  /** The text written to one stream. */
  function TextOf(ws: seq<Write>, isErr: bool): string {
    if ws == [] then [] else (if ws[0].isErr == isErr then ws[0].text else []) + TextOf(ws[1..], isErr)
  }

  function StreamText(events: seq<Event>, isErr: bool): string {
    if events == [] then [] else TextOf(Writes(events[0]), isErr) + StreamText(events[1..], isErr)
  }

  // ---- states ----

  datatype Session = Session(running: bool, exitCode: Option<int>, error: string, closed: bool, closes: nat)

  datatype Producer =
    | Scanning
    | InitReady(id: string)         // about to send on initCh
    | ErrReady(error: StreamError)  // about to send on errCh
    | FlushingOut
    | FlushingErr
    | Closing                       // the deferred session.finish
    | Stopped

  datatype Context = Live | Done

  /** `Exec`, then, once it has returned a handle, the consumer loop. */
  datatype Caller = Selecting | Consuming(id: string) | Failed(error: StreamError) | Aborted | LeftLoop(sawClose: bool)

  datatype State = State(
    events: seq<Event>, end: StreamEnd, next: nat,
    producer: Producer, initSent: bool, outBuf: string, errBuf: string, writes: seq<Write>, lines: seq<LogChunk>,
    cutOut: bool, cutErr: bool,            // lines of the stream have been given up
    initCh: seq<string>, errCh: seq<StreamError>, initSends: nat, errSends: nat,
    queue: seq<LogChunk>, session: Session, context: Context,
    caller: Caller, received: seq<LogChunk>, panicked: bool)

  function Start(events: seq<Event>, end: StreamEnd): State {
    State(events, end, 0, Scanning, false, "", "", [], [], false, false, [], [], 0, 0, [],
          Session(true, None, "", false, 0), Live, Selecting, [], false)
  }

  function Buf(s: State, isErr: bool): string {
    if isErr then s.errBuf else s.outBuf
  }

  function Cut(s: State, isErr: bool): bool {
    if isErr then s.cutErr else s.cutOut
  }

  function Tagged(lines: seq<string>, isErr: bool): seq<LogChunk> {
    if lines == [] then []
    else Tagged(lines[..|lines| - 1], isErr) + [ChunkOf(isErr, lines[|lines| - 1])]
  }

  function Finished(session: Session): Session {
    if session.closed then session else session.(running := false, closed := true, closes := session.closes + 1)
  }

  function WithError(session: Session, message: string): Session {
    if message != "" then session.(error := message) else session
  }

  function WithCode(session: Session, code: Option<int>): Session {
    if code.Some? then session.(exitCode := code) else session
  }

  /** The session as its methods change it. */
  class OpenSandboxExecSession {
    var running: bool
    var exitCode: Option<int>
    var error: string
    var closed: bool
    var closes: nat

    function View(): Session
      reads this
    {
      Session(running, exitCode, error, closed, closes)
    }

    constructor ()
      ensures View() == Session(true, None, "", false, 0)
    {
      running, exitCode, error, closed, closes := true, None, "", false, 0;
    }

    method SetError(message: string)
      modifies this
      ensures View() == WithError(old(View()), message)
    {
      if message != "" {
        error := message;
      }
    }

    method SetExitCode(code: int)
      modifies this
      ensures View() == WithCode(old(View()), Some(code))
    {
      exitCode := Some(code);
    }

    method Finish()
      modifies this
      ensures View() == Finished(old(View()))
    {
      if closed {
        return;
      }
      closed := true;
      running := false;
      closes := closes + 1;
    }
  }

  // ---- steps ----

  datatype Action =
    | Read         // the scanner yields an event
    | EndOfStream  // the scanner stops
    | WriteText    // append to a buffer, take out the completed lines
    | Emit         // select: send the first pending line
    | Abandon      // select: the done context is chosen
    | SendInit
    | SendErr
    | FlushNext
    | FlushDone
    | Close
    | TakeInit     // Exec: three ways out of its select
    | TakeErr
    | SeeContext
    | Receive      // consumer loop
    | SeeClosed
    | LeaveLoop
    | EndContext

  predicate Idle(s: State) {
    s.producer.Scanning? && s.lines == [] && s.writes == []
  }

  predicate Enabled(s: State, a: Action) {
    match a
    case Read => Idle(s) && s.next < |s.events|
    case EndOfStream => Idle(s) && s.next == |s.events|
    case WriteText => s.producer.Scanning? && s.lines == [] && s.writes != []
    case Emit => s.lines != [] && (s.session.closes > 0 || |s.queue| < CAPACITY)
    case Abandon => s.lines != [] && s.context.Done?
    case SendInit => s.producer.InitReady? && |s.initCh| < 1
    case SendErr => s.producer.ErrReady? && |s.errCh| < 1
    case FlushNext => s.producer.FlushingOut? && s.lines == []
    case FlushDone => s.producer.FlushingErr? && s.lines == []
    case Close => s.producer.Closing?
    case TakeInit => s.caller.Selecting? && s.initCh != []
    case TakeErr => s.caller.Selecting? && s.errCh != []
    case SeeContext => s.caller.Selecting? && s.context.Done?
    case Receive => s.caller.Consuming? && s.queue != []
    case SeeClosed => s.caller.Consuming? && s.queue == [] && s.session.closes > 0
    case LeaveLoop => s.caller.Consuming? && s.context.Done?
    case EndContext => s.context.Live?
  }

  function ApplyRead(s: State): State
    requires s.next < |s.events|
  {
    var e := s.events[s.next];
    var begins := IsInit(e) && !s.initSent;
    s.(next := s.next + 1, writes := Writes(e),
       initSent := s.initSent || begins,
       producer := if begins then InitReady(e.id) else s.producer,
       session := if e.Failure? then WithCode(WithError(s.session, e.message), e.code) else s.session)
  }

  function ApplyEndOfStream(s: State): State {
    if s.end.ReadError? && !s.initSent then s.(producer := ErrReady(ReadFailed(s.end.message)))
    else if !s.initSent then s.(producer := ErrReady(MissingInitEvent))
    else
      s.(producer := FlushingOut, outBuf := "", lines := Tagged(Line(s.outBuf), false),
         session := if s.end.ReadError? then WithError(s.session, s.end.message) else s.session)
  }

  function ApplyWrite(s: State): State
    requires s.writes != []
  {
    var w := s.writes[0];
    var all := Buf(s, w.isErr) + w.text;
    var s' := s.(writes := s.writes[1..], lines := Tagged(Kept(Complete(all)), w.isErr));
    if w.isErr then s'.(errBuf := Rest(all)) else s'.(outBuf := Rest(all))
  }

  /** A line given up while scanning ends the goroutine; while flushing, only that flush. */
  function ApplyAbandon(s: State): State {
    match s.producer
    case FlushingOut => s.(lines := [], cutOut := true)
    case FlushingErr => s.(lines := [], cutErr := true)
    case _ => s.(lines := [], writes := [], cutOut := true, cutErr := true, producer := Closing)
  }

  function Apply(s: State, a: Action): State
    requires Enabled(s, a)
  {
    match a
    case Read => ApplyRead(s)
    case EndOfStream => ApplyEndOfStream(s)
    case WriteText => ApplyWrite(s)
    case Emit =>
      if s.session.closes > 0 then s.(panicked := true)
      else s.(queue := s.queue + [s.lines[0]], lines := s.lines[1..])
    case Abandon => ApplyAbandon(s)
    case SendInit => s.(initCh := s.initCh + [s.producer.id], initSends := s.initSends + 1, producer := Scanning)
    case SendErr => s.(errCh := s.errCh + [s.producer.error], errSends := s.errSends + 1, producer := Closing)
    case FlushNext => s.(producer := FlushingErr, errBuf := "", lines := Tagged(Line(s.errBuf), true))
    case FlushDone => s.(producer := Closing)
    case Close =>
      var session := Finished(s.session);
      s.(session := session, producer := Stopped, panicked := s.panicked || session.closes > 1)
    case TakeInit => s.(initCh := s.initCh[1..], caller := Consuming(s.initCh[0]))
    case TakeErr => s.(errCh := s.errCh[1..], caller := Failed(s.errCh[0]))
    case SeeContext => s.(caller := Aborted)
    case Receive => s.(queue := s.queue[1..], received := s.received + [s.queue[0]])
    case SeeClosed => s.(caller := LeftLoop(true))
    case LeaveLoop => s.(caller := LeftLoop(false))
    case EndContext => s.(context := Done)
  }

  predicate Terminal(s: State) {
    s.producer.Stopped? && !s.caller.Selecting? && !s.caller.Consuming?
  }

  predicate Feasible(s: State, acts: seq<Action>)
    decreases |acts|, 0
  {
    acts == [] || (Feasible(s, Front(acts)) && Enabled(After(s, Front(acts)), acts[|acts| - 1]))
  }

  function After(s: State, acts: seq<Action>): State
    requires Feasible(s, acts)
    decreases |acts|, 1
  {
    if acts == [] then s else Apply(After(s, Front(acts)), acts[|acts| - 1])
  }

  function Front(acts: seq<Action>): seq<Action>
    requires acts != []
  {
    acts[..|acts| - 1]
  }

  // ---- the invariant ----

  /** The handshake: what has been sent where. */
  predicate HandshakeInv(s: State) {
    && s.initSends + s.errSends <= 1
    && |s.initCh| <= s.initSends && |s.errCh| <= s.errSends
    && (s.initSent <==> s.producer.InitReady? || s.initSends == 1)
    && (s.producer.InitReady? || s.producer.ErrReady? ==> s.initSends + s.errSends == 0)
    && (s.producer.FlushingOut? || s.producer.FlushingErr? ==> s.initSends == 1)
    && (s.errSends == 1 ==> s.producer.Closing? || s.producer.Stopped?)
    && ((s.producer.Closing? || s.producer.Stopped?) && s.initSends + s.errSends == 0 ==> s.context.Done?)
    && (match s.caller
        case Selecting => |s.initCh| == s.initSends && |s.errCh| == s.errSends
        case Consuming(_) => s.initSends == 1 && s.initCh == []
        case Failed(_) => s.errSends == 1
        case Aborted => s.context.Done?
        case LeftLoop(sawClose) => s.initSends == 1 && if sawClose then s.producer.Stopped? && s.queue == []
                                                       else s.context.Done?)
  }

  predicate ControlInv(s: State) {
    && !s.panicked
    && s.session.closed == s.producer.Stopped?
    && s.session.closes == (if s.producer.Stopped? then 1 else 0)
    && s.next <= |s.events| && |s.queue| <= CAPACITY
    && (s.writes != [] ==> s.producer.Scanning?)
    && (s.lines != [] ==> s.producer.Scanning? || s.producer.FlushingOut? || s.producer.FlushingErr?)
    && (s.initSends == 0 ==> s.received == [])
    // where lines can have been given up, and where the whole stream has been read
    && (s.cutOut || s.cutErr ==> s.context.Done?)
    && (s.producer.Scanning? || s.producer.InitReady? || s.producer.ErrReady? ==> !s.cutOut && !s.cutErr)
    && (s.producer.FlushingOut? ==> !s.cutErr)
    && (s.producer.Scanning? || s.producer.InitReady? || (s.cutOut && s.cutErr) || s.next == |s.events|)
  }

  function Sent(s: State): seq<LogChunk> {
    s.received + s.queue
  }

  /** Text of a stream that is still to be written. */
  function Remaining(s: State, isErr: bool): string {
    TextOf(s.writes, isErr) + StreamText(Unread(s), isErr)
  }

  function Unread(s: State): seq<Event> {
    if s.next <= |s.events| then s.events[s.next..] else []
  }

  predicate Ending(s: State) {
    s.producer.Closing? || s.producer.Stopped?
  }

  predicate Flushed(s: State, isErr: bool) {
    || s.producer.FlushingErr?
    || (s.producer.FlushingOut? && !isErr)
    || (Ending(s) && s.initSends == 1)
  }

  /** Conservation of lines: sent, pending and future lines make up the lines of the whole text. */
  predicate Conserved(s: State, isErr: bool) {
    Lines(Sent(s) + s.lines, isErr) + Output(Buf(s, isErr) + Remaining(s, isErr)) == Output(StreamText(s.events, isErr))
  }

  predicate StreamInv(s: State, isErr: bool) {
    && LF !in Buf(s, isErr)
    && (if Cut(s, isErr)
        then Lines(s.lines, isErr) == [] && Lines(Sent(s), isErr) <= Output(StreamText(s.events, isErr))
        else Conserved(s, isErr) && (Flushed(s, isErr) ==> Buf(s, isErr) == ""))
    && ((if isErr then s.producer.FlushingOut? else s.producer.FlushingErr?) ==> Lines(s.lines, isErr) == [])
  }

  predicate Inv(s: State) {
    ControlInv(s) && HandshakeInv(s) && StreamInv(s, false) && StreamInv(s, true)
  }

  /** Steps of `Exec`, of the consumer loop and of the environment. */
  predicate ByCaller(a: Action) {
    a.TakeInit? || a.TakeErr? || a.SeeContext? || a.Receive? || a.SeeClosed? || a.LeaveLoop? || a.EndContext?
  }

  lemma {:induction false} CallerKeepsHandshake(s: State, a: Action)
    requires HandshakeInv(s) && ByCaller(a) && Enabled(s, a)
    requires s.session.closes == (if s.producer.Stopped? then 1 else 0)
    ensures HandshakeInv(Apply(s, a))
  {
    hide Kept, Line, Complete, Rest, Tagged, Writes;
  }

  lemma {:induction false} ReadKeepsHandshake(s: State)
    requires HandshakeInv(s) && Enabled(s, Read)
    ensures HandshakeInv(ApplyRead(s))
  {
    hide Writes, WithError, WithCode;
  }

  lemma {:induction false} ProducerKeepsHandshake(s: State, a: Action)
    requires ControlInv(s) && HandshakeInv(s) && !ByCaller(a) && Enabled(s, a)
    ensures HandshakeInv(Apply(s, a))
  {
    hide Kept, Line, Complete, Rest, Tagged, Writes, WithError, Finished, ApplyRead;
    if a.Read? {
      ReadKeepsHandshake(s);
    }
  }

  lemma {:induction false} StepKeepsHandshake(s: State, a: Action)
    requires ControlInv(s) && HandshakeInv(s) && Enabled(s, a)
    ensures HandshakeInv(Apply(s, a))
  {
    hide HandshakeInv, Apply, Enabled;
    if ByCaller(a) {
      CallerKeepsHandshake(s, a);
    } else {
      ProducerKeepsHandshake(s, a);
    }
  }

  lemma {:induction false} CallerKeepsControl(s: State, a: Action)
    requires ControlInv(s) && HandshakeInv(s) && ByCaller(a) && Enabled(s, a)
    ensures ControlInv(Apply(s, a))
  {
    hide Kept, Line, Complete, Rest, Tagged, Writes;
  }

  lemma {:induction false} InitWritesNothing(e: Event)
    ensures e.Init? ==> Writes(e) == []
  {
  }

  lemma {:induction false} ReadKeepsControl(s: State)
    requires ControlInv(s) && Enabled(s, Read)
    ensures ControlInv(ApplyRead(s))
  {
    hide Writes;
    InitWritesNothing(s.events[s.next]);
  }

  lemma {:induction false} ProducerKeepsControl(s: State, a: Action)
    requires ControlInv(s) && HandshakeInv(s) && !ByCaller(a) && Enabled(s, a)
    ensures ControlInv(Apply(s, a))
  {
    hide Kept, Line, Complete, Rest, Tagged, ApplyRead;
    if a.Read? {
      ReadKeepsControl(s);
    }
  }

  lemma {:induction false} StepKeepsControl(s: State, a: Action)
    requires ControlInv(s) && HandshakeInv(s) && Enabled(s, a)
    ensures ControlInv(Apply(s, a))
  {
    hide HandshakeInv, ControlInv, Apply, Enabled;
    if ByCaller(a) {
      CallerKeepsControl(s, a);
    } else {
      ProducerKeepsControl(s, a);
    }
  }

  // ---- lines through the steps ----

  lemma {:induction false} LinesOfTagged(lines: seq<string>, isErr: bool, i: bool)
    ensures Lines(Tagged(lines, isErr), i) == if i == isErr then lines else []
  {
    hide ChunkOf, IsErr, Lines, Tagged;
    NothingTagged(isErr, i);
    if lines != [] {
      var front, line := lines[..|lines| - 1], lines[|lines| - 1];
      assert lines == front + [line];
      LinesOfTagged(front, isErr, i);
      TaggedSnoc(front, line, isErr);
      LinesOfSnoc(Tagged(front, isErr), ChunkOf(isErr, line), i);
    }
  }

  lemma {:induction false} NothingTagged(isErr: bool, i: bool)
    ensures Tagged([], isErr) == [] && Lines([], i) == []
  {
  }

  lemma {:induction false} TaggedSnoc(lines: seq<string>, line: string, isErr: bool)
    ensures Tagged(lines + [line], isErr) == Tagged(lines, isErr) + [ChunkOf(isErr, line)]
  {
    assert (lines + [line])[..|lines|] == lines;
  }

  /** Lines taken out of a buffer on behalf of stream `isErr`, seen from stream `i`. */
  lemma {:induction false} TakenLines(sent: seq<LogChunk>, taken: seq<string>, isErr: bool, i: bool)
    ensures Lines(sent + Tagged(taken, isErr), i) == Lines(sent, i) + if i == isErr then taken else []
  {
    hide Lines, Tagged;
    LinesOfAppend(sent, Tagged(taken, isErr), i);
    LinesOfTagged(taken, isErr, i);
  }

  lemma {:induction false} ResumeBuffered(buf: string, text: string, later: string, taken: seq<string>)
    requires taken == Kept(Complete(buf + text))
    ensures Output(buf + (text + later)) == taken + Output(Rest(buf + text) + later)
  {
    hide Complete, Rest, Output, Kept;
    assert buf + (text + later) == (buf + text) + later;
    Resume(buf + text, later);
  }

  lemma {:induction false} ReadResult(s: State)
    requires Idle(s) && s.next < |s.events|
    ensures var s' := ApplyRead(s);
      && s'.writes == Writes(s.events[s.next]) && s'.next == s.next + 1 && s'.events == s.events
      && s'.lines == [] && s'.queue == s.queue && s'.caller == s.caller && s'.context == s.context
      && (s'.producer.Scanning? || s'.producer.InitReady?)
  {
    hide Writes, WithError, WithCode;
  }

  lemma {:induction false} StreamTextStep(events: seq<Event>, i: bool)
    requires events != []
    ensures StreamText(events, i) == TextOf(Writes(events[0]), i) + StreamText(events[1..], i)
  {
  }

  /** What is left to write does not change when an event is read. */
  lemma {:induction false} ReadKeepsRemaining(s: State, i: bool)
    requires Enabled(s, Read)
    ensures Remaining(Apply(s, Read), i) == Remaining(s, i)
  {
    hide Writes;
    ReadResult(s);
    assert Unread(s)[1..] == Unread(Apply(s, Read)) && Unread(s)[0] == s.events[s.next];
    assert TextOf(s.writes, i) == "";
    StreamTextStep(Unread(s), i);
    assert "" + StreamText(Unread(s), i) == StreamText(Unread(s), i);
  }

  lemma {:induction false} WriteConserves(s: State, s': State, w: Write, taken: seq<string>, i: bool)
    requires s.next <= |s.events| && s.lines == [] && s.writes != [] && w == s.writes[0] && Conserved(s, i)
    requires s'.events == s.events && s'.next == s.next && s'.writes == s.writes[1..] && Sent(s') == Sent(s)
    requires taken == Kept(Complete(Buf(s, w.isErr) + w.text)) && s'.lines == Tagged(taken, w.isErr)
    requires Buf(s', w.isErr) == Rest(Buf(s, w.isErr) + w.text) && Buf(s', !w.isErr) == Buf(s, !w.isErr)
    ensures Conserved(s', i)
  {
    hide Output, Lines, Kept, Complete, Rest, Tagged, Remaining;
    assert Sent(s) + s.lines == Sent(s);
    TakenLines(Sent(s), taken, w.isErr, i);
    RemainingAfterWrite(s, s', w, i);
    var before, mine := Lines(Sent(s), i), if i == w.isErr then taken else [];
    assert Lines(Sent(s') + s'.lines, i) == before + mine;
    if w.isErr == i {
      ResumeBuffered(Buf(s, i), w.text, Remaining(s', i), taken);
    }
    assert Output(Buf(s, i) + Remaining(s, i)) == mine + Output(Buf(s', i) + Remaining(s', i));
    Associate(before, mine, Output(Buf(s', i) + Remaining(s', i)));
  }

  lemma {:induction false} RemainingAfterWrite(s: State, s': State, w: Write, i: bool)
    requires s.next <= |s.events| && s.writes != [] && w == s.writes[0]
    requires s'.events == s.events && s'.next == s.next && s'.writes == s.writes[1..]
    ensures Remaining(s, i) == (if w.isErr == i then w.text + Remaining(s', i) else Remaining(s', i))
  {
    var rest := StreamText(s.events[s.next..], i);
    assert (w.text + TextOf(s'.writes, i)) + rest == w.text + (TextOf(s'.writes, i) + rest);
    assert [] + TextOf(s'.writes, i) == TextOf(s'.writes, i);
  }

  lemma {:induction false} NothingRemaining(s: State, i: bool)
    requires s.next == |s.events| && s.writes == []
    ensures Remaining(s, i) == ""
  {
  }

  lemma {:induction false} FlushedOutput(before: seq<string>, buf: string)
    requires LF !in buf
    ensures (before + Line(buf)) + Output("") == before + Output(buf)
  {
    hide Output, Line;
    OutputOfRemainder(buf);
    OutputOfNothing();
  }

  /** Flushing a buffer when the whole text has been written. */
  lemma {:induction false} FlushConserves(s: State, s': State, flushed: bool, i: bool)
    requires s.next == |s.events| && s.lines == [] && s.writes == [] && Conserved(s, i) && LF !in Buf(s, flushed)
    requires s'.events == s.events && s'.next == s.next && s'.writes == [] && Sent(s') == Sent(s)
    requires s'.lines == Tagged(Line(Buf(s, flushed)), flushed)
    requires Buf(s', flushed) == "" && Buf(s', !flushed) == Buf(s, !flushed)
    ensures Conserved(s', i)
  {
    hide Output, Lines, Kept, Line, Complete, Rest, Tagged, TextOf, StreamText, Writes, Remaining;
    assert Sent(s) + s.lines == Sent(s);
    TakenLines(Sent(s), Line(Buf(s, flushed)), flushed, i);
    NothingRemaining(s, i);
    NothingRemaining(s', i);
    assert Buf(s, i) + Remaining(s, i) == Buf(s, i) && Buf(s', i) + Remaining(s', i) == Buf(s', i);
    FlushedOutput(Lines(Sent(s), i), Buf(s, flushed));
    assert Lines(Sent(s), i) + [] == Lines(Sent(s), i);
  }

  /** A line that has left the pending list is on the channel. */
  lemma {:induction false} EmitMovesLine(s: State)
    requires Enabled(s, Emit) && s.session.closes == 0
    ensures Sent(Apply(s, Emit)) + Apply(s, Emit).lines == Sent(s) + s.lines
    ensures forall i: bool :: Lines(s.lines, i) == [] ==>
              Lines(Apply(s, Emit).lines, i) == [] && Lines(Sent(Apply(s, Emit)), i) == Lines(Sent(s), i)
  {
    hide Lines;
    var head, tail := [s.lines[0]], s.lines[1..];
    assert s.lines == head + tail && Sent(Apply(s, Emit)) == Sent(s) + head;
    forall i: bool | Lines(s.lines, i) == []
      ensures Lines(tail, i) == [] && Lines(Sent(s) + head, i) == Lines(Sent(s), i)
    {
      LinesOfAppend(head, tail, i);
      LinesOfAppend(Sent(s), head, i);
    }
  }

  /** Giving up the pending lines leaves a prefix, or nothing changed for the other stream. */
  lemma {:induction false} AbandonLeavesPrefix(s: State, i: bool)
    requires s.next <= |s.events| && StreamInv(s, i)
    ensures Lines(Sent(s), i) <= Output(StreamText(s.events, i))
    ensures Lines(s.lines, i) == [] ==> Lines(Sent(s) + s.lines, i) == Lines(Sent(s) + [], i)
  {
    hide Output, Lines, StreamText, TextOf;
    LinesOfAppend(Sent(s), s.lines, i);
    assert Sent(s) + [] == Sent(s);
  }

  /** What the invariant needs of one stream. */
  predicate LocalInv(s: State, i: bool) {
    ControlInv(s) && HandshakeInv(s) && StreamInv(s, i)
  }

  lemma {:induction false} EndOfStreamKeepsStream(s: State, i: bool)
    requires LocalInv(s, i) && LF !in s.outBuf && Enabled(s, EndOfStream)
    ensures StreamInv(Apply(s, EndOfStream), i)
  {
    hide Output, Lines, Kept, Line, Complete, Rest, Tagged, TextOf, StreamText, Writes;
    if s.initSent {
      FlushConserves(s, Apply(s, EndOfStream), false, i);
      LinesOfTagged(Line(s.outBuf), false, i);
    }
  }

  lemma {:induction false} FlushNextKeepsStream(s: State, i: bool)
    requires LocalInv(s, i) && LF !in s.errBuf && Enabled(s, FlushNext)
    ensures StreamInv(Apply(s, FlushNext), i)
  {
    hide Output, Lines, Kept, Line, Complete, Rest, Tagged, TextOf, StreamText, Writes;
    if !Cut(s, i) {
      FlushConserves(s, Apply(s, FlushNext), true, i);
    }
    LinesOfTagged(Line(s.errBuf), true, i);
  }

  lemma {:induction false} WriteKeepsStream(s: State, i: bool)
    requires LocalInv(s, i) && Enabled(s, WriteText)
    ensures StreamInv(Apply(s, WriteText), i)
  {
    hide Output, Lines, Kept, Line, Complete, Rest, Tagged, TextOf, StreamText, Writes;
    var w := s.writes[0];
    WriteConserves(s, Apply(s, WriteText), w, Kept(Complete(Buf(s, w.isErr) + w.text)), i);
  }

  lemma {:induction false} EmitKeepsStream(s: State, i: bool)
    requires LocalInv(s, i) && Enabled(s, Emit)
    ensures StreamInv(Apply(s, Emit), i)
  {
    hide Output, Lines, Kept, Line, Complete, Rest, Tagged, TextOf, StreamText, Writes;
    EmitMovesLine(s);
  }

  lemma {:induction false} NoLines(i: bool)
    ensures Lines([], i) == []
  {
  }

  lemma {:induction false} AbandonKeepsStream(s: State, i: bool)
    requires LocalInv(s, i) && Enabled(s, Abandon)
    ensures StreamInv(Apply(s, Abandon), i)
  {
    hide Output, Lines, StreamText, TextOf;
    AbandonLeavesPrefix(s, i);
    NoLines(i);
  }

  predicate TouchesStreams(a: Action) {
    a.EndOfStream? || a.FlushNext? || a.WriteText? || a.Emit? || a.Abandon?
  }

  /** The part of a state that the stream invariant reads, but for the channel. */
  predicate SameStreams(s: State, s': State) {
    && s'.events == s.events && s'.lines == s.lines
    && s'.outBuf == s.outBuf && s'.errBuf == s.errBuf && s'.cutOut == s.cutOut && s'.cutErr == s.cutErr
    && (s'.producer.FlushingOut? ==> s.producer.FlushingOut?)
    && (s'.producer.FlushingErr? ==> s.producer.FlushingErr?)
    && (s'.initSends != s.initSends ==> s'.producer.Scanning?)
    && (Ending(s') ==> Ending(s) || s.producer.FlushingErr? || s'.initSends == s.initSends == 0)
  }

  lemma {:induction false} OtherStepsFrame(s: State, a: Action)
    requires ControlInv(s) && HandshakeInv(s) && Enabled(s, a) && !TouchesStreams(a)
    ensures SameStreams(s, Apply(s, a))
    ensures !a.Receive? ==> Apply(s, a).received == s.received && Apply(s, a).queue == s.queue
    ensures !a.Read? ==> Apply(s, a).next == s.next && Apply(s, a).writes == s.writes
  {
    hide Kept, Line, Complete, Rest, Tagged, Writes, WithError, WithCode, Finished;
  }

  lemma {:induction false} OtherKeepsChannel(s: State, a: Action)
    requires ControlInv(s) && HandshakeInv(s) && Enabled(s, a) && !TouchesStreams(a)
    ensures Sent(Apply(s, a)) == Sent(s)
  {
    OtherStepsFrame(s, a);
    if a.Receive? {
      assert s.queue == [s.queue[0]] + s.queue[1..];
      assert (s.received + [s.queue[0]]) + s.queue[1..] == s.received + s.queue;
    }
  }

  lemma {:induction false} StreamFrame(s: State, s': State, i: bool)
    requires s.next <= |s.events| && s'.next <= |s'.events| && StreamInv(s, i)
    requires SameStreams(s, s') && Sent(s') == Sent(s) && Remaining(s', i) == Remaining(s, i)
    ensures StreamInv(s', i)
  {
    hide Output, Lines, Kept, Line, Complete, Rest, Tagged, TextOf, StreamText, Writes;
  }

  lemma {:induction false} OtherKeepsRemaining(s: State, a: Action, i: bool)
    requires ControlInv(s) && HandshakeInv(s) && Enabled(s, a) && !TouchesStreams(a)
    ensures Apply(s, a).next <= |s.events| && Remaining(Apply(s, a), i) == Remaining(s, i)
  {
    OtherStepsFrame(s, a);
    if a.Read? {
      ReadKeepsRemaining(s, i);
    }
  }

  lemma {:induction false} OtherKeepsStream(s: State, s': State, a: Action, i: bool)
    requires LocalInv(s, i) && Enabled(s, a) && !TouchesStreams(a) && s' == Apply(s, a)
    ensures s'.next <= |s'.events| && StreamInv(s', i)
  {
    hide Output, Lines, Kept, Line, Complete, Rest, Tagged, TextOf, StreamText, Writes;
    OtherStepsFrame(s, a);
    OtherKeepsChannel(s, a);
    OtherKeepsRemaining(s, a, i);
    StreamFrame(s, s', i);
  }

  lemma {:induction false} StepKeepsStream(s: State, a: Action, i: bool)
    requires LocalInv(s, i) && LF !in s.outBuf && LF !in s.errBuf && Enabled(s, a)
    ensures StreamInv(Apply(s, a), i)
  {
    hide Apply, StreamInv, LocalInv, Output, Lines, Complete, Rest;
    match a
    case EndOfStream => EndOfStreamKeepsStream(s, i);
    case FlushNext => FlushNextKeepsStream(s, i);
    case WriteText => WriteKeepsStream(s, i);
    case Emit => EmitKeepsStream(s, i);
    case Abandon => AbandonKeepsStream(s, i);
    case _ => OtherKeepsStream(s, Apply(s, a), a, i);
  }

  /** Every step of every goroutine keeps the invariant. */
  lemma {:induction false} StepKeepsInv(s: State, a: Action)
    requires Inv(s) && Enabled(s, a)
    ensures Inv(Apply(s, a))
  {
    StepKeepsHandshake(s, a);
    StepKeepsControl(s, a);
    StepKeepsStream(s, a, false);
    StepKeepsStream(s, a, true);
  }
}
