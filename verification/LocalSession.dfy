/** The local exec session: the command, two goroutines that stream its output, one that waits for
    it, and the executor's consumer loop, over two pipes, a bounded log channel and one shared
    context.

    The protocol is a transition system.  An `Action` is one atomic step of the command, of a
    goroutine or of the environment; the scheduler picks any enabled action.  The command writes
    given texts to its two pipes, byte by byte and in any interleaving, and cannot write to a full
    pipe.  It exits when it has written everything, or once the context is done, which kills it.
    A scanner stops at the end of the output, at a line that does not fit its buffer, or because
    waiting for the command has closed its pipe.  Sending on a closed channel, or closing one
    twice, sets `panicked`.
 */
module LocalSession {
  import opened TextLines
  import opened LineScanner
  import opened LogConsumer
  import opened Wrappers

  const CAPACITY := 128

  // ---- the session object ----

  datatype WaitError = NoError | ExitError(code: int) | DeadlineExceeded | OtherError(message: string)

  datatype ExecStatus = ExecStatus(running: bool, exitCode: Option<int>, error: string)

  /** `closes` counts how often the log channel has been closed. */
  datatype Session = Session(status: ExecStatus, closed: bool, closes: nat)

  const NEW_SESSION := Session(ExecStatus(true, None, ""), false, 0)

  function CodeOf(e: WaitError): int {
    match e
    case NoError => 0
    case ExitError(code) => code
    case DeadlineExceeded => 124
    case OtherError(_) => 1
  }

  function Finished(s: Session, e: WaitError): Session {
    if s.closed then s
    else Session(ExecStatus(false, Some(CodeOf(e)), if e.OtherError? then e.message else s.status.error),
                 true, s.closes + 1)
  }

  class LocalExecSession {
    var status: ExecStatus
    var closed: bool
    var closes: nat

    function View(): Session
      reads this
    {
      Session(status, closed, closes)
    }

    constructor ()
      ensures View() == NEW_SESSION
    {
      status, closed, closes := ExecStatus(true, None, ""), false, 0;
    }

    method Finish(e: WaitError)
      modifies this
      ensures View() == Finished(old(View()), e)
    {
      if closed {
        return;
      }
      closed := true;
      status := status.(running := false);
      match e {
        case NoError =>
          status := status.(exitCode := Some(0));
          closes := closes + 1;
          return;
        case ExitError(code) =>
          status := status.(exitCode := Some(code));
        case DeadlineExceeded =>
          status := status.(exitCode := Some(124));
        case OtherError(message) =>
          status := status.(error := message);
          status := status.(exitCode := Some(1));
      }
      closes := closes + 1;
    }
  }

  // ---- states ----

  datatype StreamerPc = Scanning | Sending(line: string) | Stopped

  /** Of `text` the command has written, and the scanner read, so many bytes; its next line begins
      at `start`.  `yielded` are the lines so far, of which `sent` are on the channel. */
  datatype Streamer = Streamer(
    text: string, written: nat, read: nat, start: nat, eof: bool, yielded: seq<string>, sent: nat, pc: StreamerPc)

  datatype Waiter = InWait | AwaitStreamers(e: WaitError) | Finishing(e: WaitError) | Gone(e: WaitError)

  datatype Context = Live | Canceled | TimedOut

  datatype Result = Result(exitCode: int, timedOut: bool, deadlineError: bool)

  datatype Consumer =
    | Looping
    | Left(sawClose: bool)
    | HasStatus(sawClose: bool, status: ExecStatus)
    | Returned(sawClose: bool, status: ExecStatus, result: Result)

  /** `pipe` is what a pipe holds; `limit` the length at which logged lines are cut. */
  datatype State = State(
    out: Streamer, err: Streamer, pipe: nat, queue: seq<LogChunk>, session: Session, waiter: Waiter, context: Context,
    consumer: Consumer, received: seq<LogChunk>, log: Consumed, limit: int, panicked: bool)

  /** What a run starts from. */
  datatype Setting = Setting(out: string, err: string, limit: int, pipe: nat)

  function NewStreamer(text: string): Streamer {
    Streamer(text, 0, 0, 0, false, [], 0, Scanning)
  }

  function Start(g: Setting): State {
    State(NewStreamer(g.out), NewStreamer(g.err), g.pipe, [], NEW_SESSION, InWait, Live,
          Looping, [], NOTHING_CONSUMED, g.limit, false)
  }

  function Of(s: State, isErr: bool): Streamer {
    if isErr then s.err else s.out
  }

  function With(s: State, isErr: bool, t: Streamer): State {
    if isErr then s.(err := t) else s.(out := t)
  }

  /** What the scanner has read and not yielded. */
  function Buffered(text: string, start: nat, read: nat): string {
    if start <= read <= |text| then text[start..read] else ""
  }

  /** The next whole line ends at this offset of the buffer, if there is one. */
  function LineEnd(text: string, start: nat, read: nat): (i: int)
    ensures i >= 0 ==> start + i < read <= |text|
  {
    IndexLF(Buffered(text, start, read))
  }

  // ---- steps ----

  datatype Action =
    | Write(isErr: bool)           // the command writes a byte
    | Fill(isErr: bool)            // the scanner reads a byte
    | SeeEnd(isErr: bool)          // the scanner reads the end of the output, or from a closed pipe
    | Scan(isErr: bool)            // the scanner yields its next line
    | ScanRest(isErr: bool)        // the scanner yields an unfinished last line
    | StopScan(isErr: bool)        // the scanner stops: nothing left, or a line that does not fit
    | Send(isErr: bool)            // select: the send is chosen
    | Abandon(isErr: bool)         // select: the done context is chosen
    | CommandExits(e: WaitError)   // cmd.Wait returns
    | StreamersGone                // wg.Wait returns
    | Finish
    | EndContext(reason: Context)
    | Receive                      // consumer: a chunk
    | SeeClosed                    // consumer: channel closed and drained
    | SeeContext                   // consumer: context done, cancel the command
    | ReadStatus
    | Return

  predicate AllWritten(s: State) {
    s.out.written == |s.out.text| && s.err.written == |s.err.text|
  }

  predicate Enabled(s: State, a: Action) {
    match a
    case Write(i) =>
      s.waiter.InWait? && Of(s, i).written < |Of(s, i).text| && Of(s, i).written < Of(s, i).read + s.pipe
    case Fill(i) =>
      var t := Of(s, i);
      t.pc.Scanning? && !t.eof && t.read < t.written && t.read < t.start + LIMIT
    case SeeEnd(i) =>
      var t := Of(s, i);
      && t.pc.Scanning? && !t.eof && LineEnd(t.text, t.start, t.read) < 0 && t.read < t.start + LIMIT
      && (!s.waiter.InWait? || t.read == |t.text|)
    case Scan(i) => Of(s, i).pc.Scanning? && LineEnd(Of(s, i).text, Of(s, i).start, Of(s, i).read) >= 0
    case ScanRest(i) =>
      var t := Of(s, i);
      t.pc.Scanning? && t.eof && LineEnd(t.text, t.start, t.read) < 0 && t.start < t.read
    case StopScan(i) =>
      var t := Of(s, i);
      t.pc.Scanning? && LineEnd(t.text, t.start, t.read) < 0 && if t.eof then t.read == t.start else t.read == t.start + LIMIT
    case Send(i) => Of(s, i).pc.Sending? && (s.session.closes > 0 || |s.queue| < CAPACITY)
    case Abandon(i) => Of(s, i).pc.Sending? && !s.context.Live?
    case CommandExits(_) => s.waiter.InWait? && (AllWritten(s) || !s.context.Live?)
    case StreamersGone => s.waiter.AwaitStreamers? && s.out.pc.Stopped? && s.err.pc.Stopped?
    case Finish => s.waiter.Finishing?
    case EndContext(reason) => s.context.Live? && !reason.Live?
    case Receive => s.consumer.Looping? && s.queue != []
    case SeeClosed => s.consumer.Looping? && s.queue == [] && s.session.closes > 0
    case SeeContext => s.consumer.Looping? && !s.context.Live?
    case ReadStatus => s.consumer.Left?
    case Return => s.consumer.HasStatus?
  }

  function Yield(t: Streamer, line: string, next: nat): Streamer {
    t.(start := next, yielded := t.yielded + [DropCR(line)], pc := Sending(DropCR(line)))
  }

  function Apply(s: State, a: Action): State
    requires Enabled(s, a)
  {
    match a
    case Write(i) => With(s, i, Of(s, i).(written := Of(s, i).written + 1))
    case Fill(i) => With(s, i, Of(s, i).(read := Of(s, i).read + 1))
    case SeeEnd(i) => With(s, i, Of(s, i).(eof := true))
    case Scan(i) =>
      var t := Of(s, i);
      var end := t.start + LineEnd(t.text, t.start, t.read);
      With(s, i, Yield(t, t.text[t.start..end], end + 1))
    case ScanRest(i) =>
      var t := Of(s, i);
      With(s, i, Yield(t, Buffered(t.text, t.start, t.read), t.read))
    case StopScan(i) => With(s, i, Of(s, i).(pc := Stopped))
    case Send(i) =>
      var t := Of(s, i);
      if s.session.closes > 0 then s.(panicked := true)
      else With(s, i, t.(sent := t.sent + 1, pc := Scanning))
           .(queue := s.queue + [ChunkOf(i, t.pc.line)])
    case Abandon(i) => With(s, i, Of(s, i).(pc := Stopped))
    case CommandExits(e) => s.(waiter := AwaitStreamers(e))
    case StreamersGone => s.(waiter := Finishing(s.waiter.e))
    case Finish =>
      var session := Finished(s.session, s.waiter.e);
      s.(session := session, waiter := Gone(s.waiter.e), panicked := s.panicked || session.closes > 1)
    case EndContext(reason) => s.(context := reason)
    case Receive =>
      s.(queue := s.queue[1..], received := s.received + [s.queue[0]], log := Consume(s.log, s.queue[0], s.limit))
    case SeeClosed => s.(consumer := Left(true))
    case SeeContext => s.(consumer := Left(false))
    case ReadStatus => s.(consumer := HasStatus(s.consumer.sawClose, s.session.status))
    case Return =>
      var status := s.consumer.status;
      var code := if status.exitCode.Some? then status.exitCode.value else 0;
      var timedOut := s.context.TimedOut?;
      s.(consumer := Returned(s.consumer.sawClose, status, Result(code, timedOut, timedOut)))
  }

  /** A schedule: any sequence of actions, each enabled when it is taken. */
  predicate Feasible(s: State, acts: seq<Action>)
    decreases |acts|, 0
  {
    acts == [] || (Feasible(s, Front(acts)) && Enabled(After(s, Front(acts)), acts[|acts| - 1]))
  }

  function After(s: State, acts: seq<Action>): State
    requires Feasible(s, acts)
    decreases |acts|, 1
  {
    if acts == [] then s else Apply(After(s, Front(acts)), acts[|acts| - 1])
  }

  function Front(acts: seq<Action>): seq<Action>
    requires acts != []
  {
    acts[..|acts| - 1]
  }

  predicate Terminal(s: State) {
    s.out.pc.Stopped? && s.err.pc.Stopped? && s.waiter.Gone? && s.consumer.Returned?
  }

  // ---- the invariant ----

  /** The bytes: written, read and scanned, in this order. */
  predicate BytesInv(s: State, isErr: bool) {
    var t := Of(s, isErr);
    && t.start <= t.read <= t.written <= |t.text|
    && t.written <= t.read + s.pipe && t.read <= t.start + LIMIT
    && (t.eof ==> !s.waiter.InWait? || t.read == |t.text|)
    && (t.pc.Stopped? ==> !s.context.Live? || t.eof || (t.read == t.start + LIMIT && LineEnd(t.text, t.start, t.read) < 0))
  }

  /** What has been yielded are the lines of the text scanned; only the last can be unfinished. */
  predicate TokensInv(s: State, isErr: bool) {
    var t := Of(s, isErr);
    && t.start <= |t.text|
    && t.yielded == Tokens(t.text[..t.start])
    && (Rest(t.text[..t.start]) == "" || (t.eof && t.start == t.read))
  }

  predicate SentInv(s: State, isErr: bool) {
    var t := Of(s, isErr);
    && t.sent <= |t.yielded|
    && (t.pc.Scanning? ==> t.sent == |t.yielded|)
    && (t.pc.Sending? ==> t.sent + 1 == |t.yielded| && t.pc.line == t.yielded[t.sent])
    && (t.pc.Stopped? ==> |t.yielded| <= t.sent + 1 && (t.sent < |t.yielded| ==> !s.context.Live?))
    // conservation: what was sent is what was received plus what is on the channel
    && Lines(s.received + s.queue, isErr) == t.yielded[..t.sent]
  }

  predicate StreamerInv(s: State, isErr: bool) {
    BytesInv(s, isErr) && TokensInv(s, isErr) && SentInv(s, isErr)
  }

  predicate WaiterInv(s: State) {
    && (s.waiter.Finishing? || s.waiter.Gone? ==> s.out.pc.Stopped? && s.err.pc.Stopped?)
    && s.session == if s.waiter.Gone? then Finished(NEW_SESSION, s.waiter.e) else NEW_SESSION
  }

  predicate ConsumerInv(s: State) {
    && (!s.consumer.Looping? ==>
          if s.consumer.sawClose then s.waiter.Gone? && s.queue == [] else !s.context.Live?)
    && (s.consumer.HasStatus? || s.consumer.Returned? ==>
          && (s.consumer.sawClose ==> !s.consumer.status.running)
          && (!s.consumer.status.running ==> s.waiter.Gone? && s.consumer.status == s.session.status)
          && (s.consumer.status.running ==> s.consumer.status == NEW_SESSION.status))
    && (s.consumer.Returned? ==>
          && s.consumer.result.exitCode == (if s.consumer.status.running then 0 else CodeOf(s.waiter.e))
          && s.consumer.result.deadlineError == s.consumer.result.timedOut
          && (s.consumer.result.timedOut ==> s.context.TimedOut?)
          && (!s.consumer.sawClose ==> s.consumer.result.timedOut == s.context.TimedOut?))
  }

  predicate ControlInv(s: State) {
    && !s.panicked && s.pipe > 0 && |s.queue| <= CAPACITY
    && s.log == ConsumeAll(s.received, s.limit)
    && WaiterInv(s) && ConsumerInv(s)
  }

  predicate Inv(s: State) {
    ControlInv(s) && StreamerInv(s, false) && StreamerInv(s, true)
  }

  // ---- every step keeps it ----

  /** Steps of the command on a pipe, and of the goroutine that reads it. */
  predicate OnStream(a: Action) {
    a.Write? || a.Fill? || a.SeeEnd? || a.Scan? || a.ScanRest? || a.StopScan? || a.Send? || a.Abandon?
  }

  lemma {:induction false} StreamStepKeepsControl(s: State, a: Action)
    requires ControlInv(s) && OnStream(a) && Enabled(s, a)
    ensures ControlInv(Apply(s, a))
  {
    hide ConsumeAll, Finished, LineEnd, Buffered, DropCR, ChunkOf;
  }

  lemma {:induction false} OtherStepKeepsControl(s: State, a: Action)
    requires ControlInv(s) && !OnStream(a) && Enabled(s, a)
    ensures ControlInv(Apply(s, a))
  {
    hide Consume, ConsumeAll, LineEnd, Buffered;
    if a.Receive? {
      ConsumeAllSnoc(s.received, s.queue[0], s.limit);
    }
  }

  lemma {:induction false} StepKeepsControl(s: State, a: Action)
    requires ControlInv(s) && Enabled(s, a)
    ensures ControlInv(Apply(s, a))
  {
    hide ControlInv, Apply, Enabled;
    if OnStream(a) {
      StreamStepKeepsControl(s, a);
    } else {
      OtherStepKeepsControl(s, a);
    }
  }

  lemma {:induction false} StreamStepKeepsBytes(s: State, a: Action, i: bool)
    requires BytesInv(s, i) && OnStream(a) && a.isErr == i && Enabled(s, a)
    ensures BytesInv(Apply(s, a), i)
  {
    hide Consume, Finished, DropCR, ChunkOf, LineEnd, Buffered;
  }

  lemma {:induction false} OtherStepKeepsBytes(s: State, a: Action, i: bool)
    requires BytesInv(s, i) && !(OnStream(a) && a.isErr == i) && Enabled(s, a)
    ensures BytesInv(Apply(s, a), i)
  {
    hide Consume, Finished, DropCR, ChunkOf, LineEnd, Buffered;
  }

  lemma {:induction false} StepKeepsBytes(s: State, a: Action, i: bool)
    requires BytesInv(s, i) && Enabled(s, a)
    ensures BytesInv(Apply(s, a), i)
  {
    hide BytesInv, Apply, Enabled;
    if OnStream(a) && a.isErr == i {
      StreamStepKeepsBytes(s, a, i);
    } else {
      OtherStepKeepsBytes(s, a, i);
    }
  }

  lemma {:induction false} FirstLF(text: string, start: nat, read: nat)
    requires LineEnd(text, start, read) >= 0
    ensures var k := start + LineEnd(text, start, read);
      k < read <= |text| && text[k] == LF && LF !in text[start..k]
  {
    hide IndexLF;
    var n := LineEnd(text, start, read);
    assert text[start..read][n] == text[start + n] && text[start..read][..n] == text[start..start + n];
  }

  /** The line found in the buffer, with its line feed, extends the text scanned. */
  lemma {:induction false} LineFound(text: string, start: nat, read: nat)
    requires start <= read <= |text| && LineEnd(text, start, read) >= 0
    ensures var k := start + LineEnd(text, start, read);
      LF !in text[start..k] && text[..k + 1] == text[..start] + text[start..k] + [LF]
  {
    hide LineEnd;
    FirstLF(text, start, read);
    var k := start + LineEnd(text, start, read);
    assert text[..k + 1] == text[..start] + text[start..k] + [text[k]];
  }

  lemma {:induction false} ScanKeepsTokens(s: State, i: bool)
    requires BytesInv(s, i) && TokensInv(s, i) && Enabled(s, Scan(i))
    ensures TokensInv(Apply(s, Scan(i)), i)
  {
    hide IndexLF, DropCR, Tokens, Rest, LineEnd, Buffered;
    var t := Of(s, i);
    LineFound(t.text, t.start, t.read);
    NextToken(t.text[..t.start], t.text[t.start..t.start + LineEnd(t.text, t.start, t.read)]);
  }

  lemma {:induction false} ScanRestKeepsTokens(s: State, i: bool)
    requires BytesInv(s, i) && TokensInv(s, i) && Enabled(s, ScanRest(i))
    ensures TokensInv(Apply(s, ScanRest(i)), i)
  {
    hide DropCR, Tokens, Rest;
    var t := Of(s, i);
    assert t.text[..t.read] == t.text[..t.start] + Buffered(t.text, t.start, t.read);
    LastToken(t.text[..t.start], Buffered(t.text, t.start, t.read));
  }

  lemma {:induction false} OtherKeepsTokens(s: State, a: Action, i: bool)
    requires BytesInv(s, i) && TokensInv(s, i) && Enabled(s, a) && a != Scan(i) && a != ScanRest(i)
    ensures TokensInv(Apply(s, a), i)
  {
    hide Consume, Finished, DropCR, ChunkOf, Tokens, Rest, LineEnd, Buffered;
  }

  lemma {:induction false} StepKeepsTokens(s: State, a: Action, i: bool)
    requires BytesInv(s, i) && TokensInv(s, i) && Enabled(s, a)
    ensures TokensInv(Apply(s, a), i)
  {
    hide TokensInv, Apply, Enabled;
    if a == Scan(i) {
      ScanKeepsTokens(s, i);
    } else if a == ScanRest(i) {
      ScanRestKeepsTokens(s, i);
    } else {
      OtherKeepsTokens(s, a, i);
    }
  }

  lemma {:induction false} SendKeepsSent(s: State, j: bool, i: bool)
    requires SentInv(s, j) && SentInv(s, i) && s.session.closes == 0 && Enabled(s, Send(j))
    ensures SentInv(Apply(s, Send(j)), i)
  {
    hide Consume, Finished, ChunkOf, IsErr, Lines;
    var t := Of(s, j);
    var chunk := ChunkOf(j, t.pc.line);
    LinesOfSnoc(s.received + s.queue, chunk, i);
    assert s.received + (s.queue + [chunk]) == s.received + s.queue + [chunk];
    assert t.yielded[..t.sent + 1] == t.yielded[..t.sent] + [t.yielded[t.sent]];
  }

  lemma {:induction false} SendIsOpen(s: State, j: bool)
    requires WaiterInv(s) && Enabled(s, Send(j))
    ensures s.session.closes == 0
  {
  }

  lemma {:induction false} YieldKeepsSent(s: State, j: bool, i: bool, line: string, next: nat)
    requires SentInv(s, i) && Of(s, j).pc.Scanning?
    ensures SentInv(With(s, j, Yield(Of(s, j), line, next)), i)
  {
    hide Lines, DropCR;
    var t := Of(s, j);
    if i == j {
      assert (t.yielded + [DropCR(line)])[..t.sent] == t.yielded[..t.sent];
    }
  }

  lemma {:induction false} ScanKeepsSent(s: State, a: Action, i: bool)
    requires SentInv(s, i) && (a.Scan? || a.ScanRest?) && Enabled(s, a)
    ensures SentInv(Apply(s, a), i)
  {
    hide Lines, LineEnd, Buffered, DropCR, SentInv;
    var j, t := a.isErr, Of(s, a.isErr);
    if a.Scan? {
      var end := t.start + LineEnd(t.text, t.start, t.read);
      YieldKeepsSent(s, j, i, t.text[t.start..end], end + 1);
    } else {
      YieldKeepsSent(s, j, i, Buffered(t.text, t.start, t.read), t.read);
    }
  }

  lemma {:induction false} ReceiveKeepsSent(s: State, i: bool)
    requires SentInv(s, i) && Enabled(s, Receive)
    ensures SentInv(Apply(s, Receive), i)
  {
    hide Lines, Consume;
    assert s.received + [s.queue[0]] + s.queue[1..] == s.received + s.queue;
  }

  lemma {:induction false} OtherKeepsSent(s: State, a: Action, i: bool)
    requires SentInv(s, i) && !(a.Scan? || a.ScanRest? || a.Send? || a.Receive?) && Enabled(s, a)
    ensures SentInv(Apply(s, a), i)
  {
    hide Lines, LineEnd, Buffered, Finished;
  }

  lemma {:induction false} StepKeepsSent(s: State, a: Action, i: bool)
    requires ControlInv(s) && SentInv(s, false) && SentInv(s, true) && Enabled(s, a)
    ensures SentInv(Apply(s, a), i)
  {
    hide SentInv, Apply, Enabled, ConsumerInv, ConsumeAll, Consume;
    match a
    case Scan(_) => ScanKeepsSent(s, a, i);
    case ScanRest(_) => ScanKeepsSent(s, a, i);
    case Send(j) =>
      SendIsOpen(s, j);
      SendKeepsSent(s, j, i);
    case Receive => ReceiveKeepsSent(s, i);
    case _ => OtherKeepsSent(s, a, i);
  }

  /** Every step of the command, of every goroutine, and of the environment keeps the invariant. */
  lemma {:induction false} StepKeepsInv(s: State, a: Action)
    requires Inv(s) && Enabled(s, a)
    ensures Inv(Apply(s, a))
  {
    StepKeepsControl(s, a);
    forall i: bool ensures StreamerInv(Apply(s, a), i) {
      StepKeepsBytes(s, a, i);
      StepKeepsTokens(s, a, i);
      StepKeepsSent(s, a, i);
    }
    hide ControlInv, BytesInv, TokensInv, SentInv, Apply, Enabled;
  }

  // ---- progress ----

  function StreamerRank(t: Streamer): int {
    (|t.text| - t.written) + (|t.text| - t.read) + 3 * (|t.text| - t.start) + (if t.eof then 0 else 1)
    + match t.pc case Scanning => 1 case Sending(_) => 3 case Stopped => 0
  }

  /** The number of steps that can still be taken. */
  function Rank(s: State): int {
    StreamerRank(s.out) + StreamerRank(s.err) + |s.queue|
    + (match s.waiter case InWait => 3 case AwaitStreamers(_) => 2 case Finishing(_) => 1 case Gone(_) => 0)
    + (if s.context.Live? then 1 else 0)
    + (match s.consumer case Looping => 3 case Left(_) => 2 case HasStatus(_, _) => 1 case Returned(_, _, _) => 0)
  }

  lemma {:induction false} StreamStepLowersRank(s: State, a: Action)
    requires OnStream(a) && BytesInv(s, a.isErr) && s.session.closes == 0 && Enabled(s, a)
    ensures var s' := Apply(s, a);
      StreamerRank(Of(s', a.isErr)) + |s'.queue| < StreamerRank(Of(s, a.isErr)) + |s.queue|
  {
    hide Consume, Finished, DropCR, ChunkOf, LineEnd, Buffered;
  }

  lemma {:induction false} StreamStepChangesOneStream(s: State, a: Action)
    requires OnStream(a) && Enabled(s, a)
    ensures var s' := Apply(s, a);
      && Of(s', !a.isErr) == Of(s, !a.isErr)
      && s'.waiter == s.waiter && s'.context == s.context && s'.consumer == s.consumer
  {
    hide Consume, Finished, DropCR, ChunkOf, LineEnd, Buffered;
  }

  lemma {:induction false} OtherStepLowersRank(s: State, a: Action)
    requires !OnStream(a) && Enabled(s, a)
    ensures Rank(Apply(s, a)) < Rank(s)
  {
    hide Consume, Finished, DropCR, ChunkOf, LineEnd, Buffered, StreamerRank;
  }

  lemma {:induction false} StepLowersRank(s: State, a: Action)
    requires Inv(s) && Enabled(s, a)
    ensures Rank(Apply(s, a)) < Rank(s)
  {
    hide Apply, StreamerRank, LineEnd;
    if OnStream(a) {
      StreamStepLowersRank(s, a);
      StreamStepChangesOneStream(s, a);
    } else {
      OtherStepLowersRank(s, a);
    }
  }

  lemma {:induction false} RankIsNatural(s: State)
    requires Inv(s)
    ensures Rank(s) >= 0
  {
  }

  /** A streamer that holds a line is never stuck: it can send, it can abandon the line, or the
      consumer, which is then still in its loop, can make room. */
  lemma {:induction false} StreamerIsNeverStuck(s: State, i: bool)
    requires Inv(s) && Of(s, i).pc.Sending?
    ensures Enabled(s, Send(i)) || Enabled(s, Abandon(i)) || Enabled(s, Receive)
    ensures !s.context.Live? ==> Enabled(s, Abandon(i))
    ensures s.session.closes == 0
  {
    hide BytesInv, TokensInv, SentInv, ConsumeAll, LineEnd;
  }

  /** The command is blocked on a full pipe whose scanner has stopped. */
  predicate Blocked(s: State, i: bool) {
    var t := Of(s, i);
    t.pc.Stopped? && t.written < |t.text| && t.written == t.read + s.pipe
  }

  predicate Hanging(s: State) {
    s.context.Live? && s.waiter.InWait? && (Blocked(s, false) || Blocked(s, true))
  }

  lemma {:induction false} ScannerHasStep(s: State, i: bool) returns (a: Action)
    requires Inv(s) && Of(s, i).pc.Scanning?
    ensures OnStream(a) && a.isErr == i && Enabled(s, a)
  {
    hide LineEnd, Buffered, TokensInv, SentInv, ConsumeAll, Finished;
    var t := Of(s, i);
    if LineEnd(t.text, t.start, t.read) >= 0 {
      a := Scan(i);
    } else if t.eof {
      a := if t.start < t.read then ScanRest(i) else StopScan(i);
    } else if t.read == t.start + LIMIT {
      a := StopScan(i);
    } else if t.read < t.written {
      a := Fill(i);
    } else {
      a := if s.waiter.InWait? && t.read < |t.text| then Write(i) else SeeEnd(i);
    }
  }

  lemma {:induction false} CommandHasStep(s: State) returns (a: Action)
    requires BytesInv(s, false) && BytesInv(s, true) && s.out.pc.Stopped? && s.err.pc.Stopped?
    requires s.waiter.InWait? && !Hanging(s)
    ensures Enabled(s, a) && !a.EndContext?
  {
    hide LineEnd, Buffered;
    if AllWritten(s) || !s.context.Live? {
      a := CommandExits(NoError);
    } else {
      a := Write(s.out.written == |s.out.text|);
    }
  }

  lemma {:induction false} WaiterHasStep(s: State) returns (a: Action)
    requires Inv(s) && s.out.pc.Stopped? && s.err.pc.Stopped? && !Terminal(s) && !Hanging(s)
    ensures Enabled(s, a) && !a.EndContext?
  {
    hide LineEnd, Buffered, TokensInv, SentInv, BytesInv, ConsumeAll;
    match s.waiter {
      case InWait => a := CommandHasStep(s);
      case AwaitStreamers(_) => a := StreamersGone;
      case Finishing(_) => a := Finish;
      case Gone(_) =>
        a := match s.consumer
             case Looping => if s.queue == [] then SeeClosed else Receive
             case Left(_) => ReadStatus
             case _ => Return;
    }
  }

  /** Until everything has ended, or the command is blocked for good, some step other than ending
      the context is enabled. */
  lemma {:induction false} SomeStepIsEnabled(s: State) returns (a: Action)
    requires Inv(s) && !Terminal(s) && !Hanging(s)
    ensures Enabled(s, a) && !a.EndContext?
  {
    hide LineEnd, Buffered, TokensInv, SentInv, ConsumeAll, Finished;
    if !s.out.pc.Stopped? || !s.err.pc.Stopped? {
      var i := s.out.pc.Stopped?;
      if Of(s, i).pc.Sending? {
        StreamerIsNeverStuck(s, i);
        a := if Enabled(s, Abandon(i)) then Abandon(i) else if Enabled(s, Send(i)) then Send(i) else Receive;
      } else {
        a := ScannerHasStep(s, i);
      }
    } else {
      a := WaiterHasStep(s);
    }
  }

  // ---- whole runs ----

  lemma {:induction false} StartKeepsInv(g: Setting)
    requires g.pipe > 0
    ensures Inv(Start(g)) && Rank(Start(g)) == 5 * (|g.out| + |g.err|) + 11
  {
    assert g.out[..0] == "" && g.err[..0] == "";
  }

  lemma {:induction false} ApplyKeepsSetting(s: State, a: Action)
    requires Enabled(s, a)
    ensures var s' := Apply(s, a);
      s'.out.text == s.out.text && s'.err.text == s.err.text && s'.pipe == s.pipe && s'.limit == s.limit
    ensures Apply(s, a).context.Live? ==> s.context.Live?
  {
    hide Consume, Finished, DropCR, ChunkOf, LineEnd, Buffered;
  }

  lemma {:induction false} ScheduleKeepsInv(g: Setting, acts: seq<Action>)
    requires g.pipe > 0 && Feasible(Start(g), acts)
    ensures var s := After(Start(g), acts);
      && Inv(s) && s.out.text == g.out && s.err.text == g.err && s.pipe == g.pipe && s.limit == g.limit
      && 0 <= Rank(s) <= 5 * (|g.out| + |g.err|) + 11 - |acts|
  {
    hide Inv, Apply, Enabled, Rank;
    if acts == [] {
      StartKeepsInv(g);
    } else {
      var s, a := After(Start(g), Front(acts)), acts[|acts| - 1];
      ScheduleKeepsInv(g, Front(acts));
      StepKeepsInv(s, a);
      StepLowersRank(s, a);
      ApplyKeepsSetting(s, a);
    }
    RankIsNatural(After(Start(g), acts));
  }

  /** What a run has delivered of one stream: an in-order prefix of the lines scanned, all of them
      once the consumer has returned although the context was never done.  The lines scanned are
      those of a first part of the output; the whole ones are the first lines of the output. */
  ghost predicate Delivers(s: State, isErr: bool, text: string) {
    var t := Of(s, isErr);
    && t.start <= |text| && t.yielded == Tokens(text[..t.start])
    && Dropped(Complete(text[..t.start])) <= Tokens(text)
    && Lines(s.received, isErr) <= t.yielded
    && (s.consumer.Returned? && s.context.Live? ==> Lines(s.received, isErr) == t.yielded)
  }

  lemma {:induction false} InvDelivers(s: State, isErr: bool)
    requires Inv(s)
    ensures Delivers(s, isErr, Of(s, isErr).text)
  {
    hide Tokens, Complete, Dropped, ConsumeAll, LineEnd;
    TokensOfPrefix(Of(s, isErr).text, Of(s, isErr).start);
    LinesOfAppend(s.received, s.queue, isErr);
    var t := Of(s, isErr);
    assert t.yielded[..t.sent] <= t.yielded;
    if s.queue == [] {
      assert s.received + s.queue == s.received;
    }
  }

  /** The exit code with which a command ends. */
  predicate EndsWith(e: WaitError, code: int) {
    match e
    case NoError => code == 0
    case ExitError(c) => code == c
    case DeadlineExceeded => code == 124
    case OtherError(_) => code == 1
  }

  /** Safety in every interleaving: no send on the closed channel and no second close, ordered
      delivery numbered without gaps, and a final status for a consumer that saw the close. */
  lemma {:induction false} EveryRunIsSafe(g: Setting, acts: seq<Action>)
    requires g.pipe > 0 && Feasible(Start(g), acts)
    ensures var s := After(Start(g), acts);
      && !s.panicked && s.session.closes <= 1 && |s.queue| <= 128
      && Delivers(s, false, g.out) && Delivers(s, true, g.err)
      && s.log == ConsumeAll(s.received, g.limit)
      && (s.consumer.Returned? && s.consumer.sawClose ==>
            && s.session.closes == 1 && s.waiter.Gone?
            && s.consumer.status
               == match s.waiter.e
                  case NoError => ExecStatus(false, Some(0), "")
                  case ExitError(code) => ExecStatus(false, Some(code), "")
                  case DeadlineExceeded => ExecStatus(false, Some(124), "")
                  case OtherError(message) => ExecStatus(false, Some(1), message))
      && (s.consumer.Returned? && s.consumer.sawClose ==> EndsWith(s.waiter.e, s.consumer.result.exitCode))
  {
    hide Delivers, StreamerInv;
    ScheduleKeepsInv(g, acts);
    InvDelivers(After(Start(g), acts), false);
    InvDelivers(After(Start(g), acts), true);
  }

  // ---- commands that block on a full pipe ----

  /** Nothing but the end of the context can happen, and something is still to be done. */
  ghost predicate Stuck(s: State) {
    !Terminal(s) && forall a: Action :: !a.EndContext? ==> !Enabled(s, a)
  }

  /** A run that hangs while its context is live. */
  ghost predicate CanHang(g: Setting) {
    exists acts :: Feasible(Start(g), acts) && Stuck(After(Start(g), acts))
  }

  /** Liveness in every interleaving: a run has a bounded length, and one that cannot be continued
      has ended every goroutine and closed the channel exactly once, unless the command is blocked
      on a full pipe whose scanner has stopped. */
  lemma {:induction false} EveryRunTerminates(g: Setting, acts: seq<Action>)
    requires g.pipe > 0 && Feasible(Start(g), acts)
    ensures |acts| <= 5 * (|g.out| + |g.err|) + 11
    ensures var s := After(Start(g), acts);
      (forall a: Action :: !a.EndContext? ==> !Enabled(s, a)) ==> (Terminal(s) && s.session.closes == 1) || Hanging(s)
  {
    ScheduleKeepsInv(g, acts);
    var s := After(Start(g), acts);
    if !Terminal(s) && !Hanging(s) {
      var a := SomeStepIsEnabled(s);
    }
  }

  /** A blocked command is one that has more to write, behind a line that does not fit. */
  lemma {:induction false} BlockedOverflows(s: State, i: bool)
    requires Inv(s) && s.context.Live? && s.waiter.InWait? && Blocked(s, i)
    ensures Overlong(Of(s, i).text, Of(s, i).start, s.pipe)
  {
    hide ControlInv, SentInv, IndexLF, Rest, Tokens;
    var t := Of(s, i);
    RestIsLineStart(t.text[..t.start]);
    assert t.start < t.read;
    assert Buffered(t.text, t.start, t.read) == t.text[t.start..t.start + LIMIT];
    assert LF !in Buffered(t.text, t.start, t.read);
  }

  /** The scanner has not passed the line at `k`, nor seen an end, and the command is running. */
  predicate HeldAt(s: State, i: bool, k: nat) {
    s.waiter.InWait? && Of(s, i).start <= k && !Of(s, i).eof
  }

  lemma {:induction false} IsInSlice(text: string, lo: nat, hi: int, j: int)
    ensures lo <= j < hi <= |text| ==> text[j] in text[lo..hi]
  {
    assert lo <= j < hi <= |text| ==> text[lo..hi][j - lo] == text[j];
  }

  lemma {:induction false} ScanStopsBefore(text: string, start: nat, read: nat, k: nat, room: nat)
    requires Overlong(text, k, room) && start <= k && read <= start + LIMIT && LineEnd(text, start, read) >= 0
    ensures start + LineEnd(text, start, read) + 1 <= k
  {
    hide LineEnd;
    FirstLF(text, start, read);
    var p := start + LineEnd(text, start, read);
    IsInSlice(text, k, k + LIMIT, p);
    IsInSlice(text, start, p, k - 1);
  }

  lemma {:induction false} StepKeepsHeld(s: State, a: Action, i: bool, k: nat)
    requires BytesInv(s, i) && Overlong(Of(s, i).text, k, s.pipe) && HeldAt(s, i, k)
    requires Enabled(s, a) && Apply(s, a).context.Live?
    ensures HeldAt(Apply(s, a), i, k)
  {
    hide Consume, Finished, DropCR, ChunkOf, LineEnd, Buffered;
    var t := Of(s, i);
    if a == Scan(i) {
      ScanStopsBefore(t.text, t.start, t.read, k, s.pipe);
    }
  }

  /** A line that does not fit, with more behind it than the pipe holds, keeps every run whose
      context is live from ending: the command is never waited for. */
  lemma {:induction false} OverflowHoldsBack(g: Setting, acts: seq<Action>, i: bool, k: nat)
    requires g.pipe > 0 && Feasible(Start(g), acts) && After(Start(g), acts).context.Live?
    requires Overlong(if i then g.err else g.out, k, g.pipe)
    ensures HeldAt(After(Start(g), acts), i, k) && After(Start(g), acts).consumer.Looping?
  {
    hide Apply, Enabled, Overlong, StreamerInv, BytesInv;
    ScheduleKeepsInv(g, acts);
    if acts != [] {
      var s, a := After(Start(g), Front(acts)), acts[|acts| - 1];
      ScheduleKeepsInv(g, Front(acts));
      ApplyKeepsSetting(s, a);
      OverflowHoldsBack(g, Front(acts), i, k);
      InvGivesBytes(s, i);
      StepKeepsHeld(s, a, i, k);
    }
  }

  lemma {:induction false} InvGivesBytes(s: State, i: bool)
    requires Inv(s)
    ensures BytesInv(s, i)
  {
  }

  /** Any run can be continued, without the end of its context, until only that is left. */
  lemma {:induction false} RunToTheEnd(g: Setting, acts: seq<Action>) returns (more: seq<Action>)
    requires g.pipe > 0 && Feasible(Start(g), acts)
    ensures acts <= more && Feasible(Start(g), more)
    ensures After(Start(g), acts).context.Live? ==> After(Start(g), more).context.Live?
    ensures forall a: Action :: !a.EndContext? ==> !Enabled(After(Start(g), more), a)
    decreases 5 * (|g.out| + |g.err|) + 11 - |acts|
  {
    hide Enabled, Apply, Inv, Rank;
    var s := After(Start(g), acts);
    ScheduleKeepsInv(g, acts);
    if a: Action :| !a.EndContext? && Enabled(s, a) {
      var longer := acts + [a];
      assert Front(longer) == acts;
      ScheduleKeepsInv(g, longer);
      OtherStepKeepsContext(s, a);
      more := RunToTheEnd(g, longer);
    } else {
      more := acts;
    }
  }

  lemma {:induction false} OtherStepKeepsContext(s: State, a: Action)
    requires Enabled(s, a) && !a.EndContext?
    ensures Apply(s, a).context == s.context
  {
    hide Consume, Finished, DropCR, ChunkOf, LineEnd, Buffered;
  }

  lemma {:induction false} HangOverflows(g: Setting, acts: seq<Action>)
    requires g.pipe > 0 && Feasible(Start(g), acts) && Stuck(After(Start(g), acts))
    ensures Overflows(g.out, g.pipe) || Overflows(g.err, g.pipe)
  {
    hide Inv, Enabled, Apply, Rank, Overlong;
    var s := After(Start(g), acts);
    ScheduleKeepsInv(g, acts);
    EveryRunTerminates(g, acts);
    BlockedOverflows(s, Blocked(s, true));
  }

  lemma {:induction false} OverflowHangs(g: Setting, i: bool, k: nat)
    requires g.pipe > 0 && Overlong(if i then g.err else g.out, k, g.pipe)
    ensures CanHang(g)
  {
    hide Inv, Enabled, Apply, Rank, Overlong;
    assert Feasible(Start(g), []);
    var acts := RunToTheEnd(g, []);
    OverflowHoldsBack(g, acts, i, k);
  }

  /** A session whose context is never ended can hang exactly when one of the two outputs has a
      line that does not fit the scanner with more behind it than a pipe holds. */
  lemma {:induction false} HangCondition(g: Setting)
    requires g.pipe > 0
    ensures CanHang(g) <==> Overflows(g.out, g.pipe) || Overflows(g.err, g.pipe)
  {
    hide Inv, Enabled, Apply, Rank, Overlong;
    if CanHang(g) {
      var acts :| Feasible(Start(g), acts) && Stuck(After(Start(g), acts));
      HangOverflows(g, acts);
    }
    forall k | Overlong(g.out, k, g.pipe) ensures CanHang(g) {
      OverflowHangs(g, false, k);
    }
    forall k | Overlong(g.err, k, g.pipe) ensures CanHang(g) {
      OverflowHangs(g, true, k);
    }
  }

  /** The condition is met by a line of that length alone, whatever the pipe holds. */
  lemma {:induction false} OneLongLineHangs(g: Setting)
    requires g.pipe > 0 && LF !in g.out && |g.out| > 0x10_0000 + g.pipe
    ensures CanHang(g)
  {
    assert Overlong(g.out, 0, g.pipe);
    HangCondition(g);
  }

  // ---- output that is lost ----

  /** A run that returns although its context is live, with output that was never scanned. */
  predicate Loses(s: State) {
    s.consumer.Returned? && s.context.Live? && (s.out.start < |s.out.text| || s.err.start < |s.err.text|)
  }

  ghost predicate CanLoseOutput(g: Setting) {
    exists acts :: Feasible(Start(g), acts) && Loses(After(Start(g), acts))
  }

  predicate Unread(s: State, i: bool) {
    Of(s, i).read < |Of(s, i).text|
  }

  lemma {:induction false} ReadsAtMostOne(s: State, a: Action, i: bool)
    requires Enabled(s, a)
    ensures Of(Apply(s, a), i).read == Of(s, i).read + (if a == Fill(i) then 1 else 0)
    ensures Of(Apply(s, a), i).text == Of(s, i).text
  {
    hide Consume, Finished, DropCR, ChunkOf, LineEnd, Buffered;
  }

  /** The last byte of a stream need not be read: until then another step is enabled. */
  lemma {:induction false} StepWithoutReading(s: State, i: bool) returns (a: Action)
    requires Inv(s) && s.context.Live? && !Terminal(s) && !Hanging(s) && Unread(s, i)
    ensures Enabled(s, a) && !a.EndContext? && Unread(Apply(s, a), i)
  {
    hide LineEnd, Buffered, TokensInv, SentInv, ConsumeAll, Finished, Apply;
    a := SomeStepIsEnabled(s);
    var t := Of(s, i);
    if a == Fill(i) && t.read + 1 == |t.text| {
      if LineEnd(t.text, t.start, t.read) >= 0 {
        a := Scan(i);
      } else if !s.waiter.InWait? {
        a := SeeEnd(i);
      } else if t.written < |t.text| {
        a := Write(i);
      } else if AllWritten(s) {
        a := CommandExits(NoError);
      } else if Of(s, !i).pc.Scanning? {
        a := ScannerHasStep(s, !i);
      } else if Of(s, !i).pc.Sending? {
        StreamerIsNeverStuck(s, !i);
        a := if Enabled(s, Send(!i)) then Send(!i) else Receive;
      } else {
        a := Write(!i);
      }
    }
    ReadsAtMostOne(s, a, i);
  }

  lemma {:induction false} RunWithoutReading(g: Setting, acts: seq<Action>, i: bool) returns (more: seq<Action>)
    requires g.pipe > 0 && !Overflows(g.out, g.pipe) && !Overflows(g.err, g.pipe)
    requires Feasible(Start(g), acts) && After(Start(g), acts).context.Live? && Unread(After(Start(g), acts), i)
    ensures Feasible(Start(g), more) && Loses(After(Start(g), more))
    decreases 5 * (|g.out| + |g.err|) + 11 - |acts|
  {
    hide Enabled, Apply, Rank, Overlong, TokensInv, SentInv, ControlInv;
    var s := After(Start(g), acts);
    ScheduleKeepsInv(g, acts);
    if Terminal(s) {
      more := acts;
    } else {
      if Hanging(s) {
        BlockedOverflows(s, Blocked(s, true));
        assert false;
      }
      var a := StepWithoutReading(s, i);
      OtherStepKeepsContext(s, a);
      var longer := acts + [a];
      assert Front(longer) == acts;
      ScheduleKeepsInv(g, longer);
      more := RunWithoutReading(g, longer, i);
    }
  }

  /** A command's output can be lost without a cancellation exactly when there is some, and the
      session cannot hang: waiting for the command closes the pipes that are still being read. */
  lemma {:induction false} LossCondition(g: Setting)
    requires g.pipe > 0
    ensures CanLoseOutput(g) <==> (g.out != "" || g.err != "") && !CanHang(g)
  {
    hide Inv, Enabled, Apply, Rank, Overlong;
    HangCondition(g);
    if CanLoseOutput(g) {
      var acts :| Feasible(Start(g), acts) && Loses(After(Start(g), acts));
      ScheduleKeepsInv(g, acts);
      forall k ensures !Overlong(g.out, k, g.pipe) && !Overlong(g.err, k, g.pipe) {
        LosingFits(g, acts, false, k);
        LosingFits(g, acts, true, k);
      }
    }
    if (g.out != "" || g.err != "") && !CanHang(g) {
      assert Feasible(Start(g), []);
      var acts := RunWithoutReading(g, [], g.out == "");
    }
  }

  lemma {:induction false} LosingFits(g: Setting, acts: seq<Action>, i: bool, k: nat)
    requires g.pipe > 0 && Feasible(Start(g), acts) && Loses(After(Start(g), acts))
    ensures !Overlong(if i then g.err else g.out, k, g.pipe)
  {
    hide Enabled, Apply, Overlong;
    if Overlong(if i then g.err else g.out, k, g.pipe) {
      OverflowHoldsBack(g, acts, i, k);
    }
  }

  // ---- what the caller is told ----

  /** The caller is told no error, and a code that is not that of the command's end. */
  predicate Misreports(s: State) {
    && s.consumer.Returned? && !s.consumer.result.deadlineError
    && !(!s.waiter.InWait? && EndsWith(s.waiter.e, s.consumer.result.exitCode))
  }

  ghost predicate CanMisreport(g: Setting, context: Context) {
    exists acts :: Feasible(Start(g), acts) && Misreports(After(Start(g), acts)) && After(Start(g), acts).context == context
  }

  /** A deadline is reported only when there was one, and a wrong answer is always the same:
      success of a command whose context was cancelled. */
  lemma {:induction false} ReportedCode(g: Setting, acts: seq<Action>)
    requires g.pipe > 0 && Feasible(Start(g), acts)
    ensures var s := After(Start(g), acts);
      && (s.consumer.Returned? && s.consumer.result.deadlineError ==> s.context.TimedOut?)
      && (s.consumer.Returned? ==> s.consumer.result.timedOut == s.consumer.result.deadlineError)
      && (Misreports(s) ==> s.context.Canceled? && s.consumer.result == Result(0, false, false))
  {
    ScheduleKeepsInv(g, acts);
    hide StreamerInv;
  }

  /** For every output and every end of the command there is a run that reports success while the
      command is still running. */
  lemma {:induction false} CancellationReportsSuccess(g: Setting, e: WaitError) returns (early: State, s: State)
    ensures Reachable(Start(g), early) && early.waiter.InWait? && early.context.Canceled?
    ensures early.consumer.Returned? && early.consumer.result == Result(0, false, false)
    ensures Reachable(Start(g), s) && Terminal(s) && s.waiter.e == e && s.consumer == early.consumer
  {
    hide Reachable;
    var s0 := Start(g);
    ReachStart(s0);
    s := ReachStep(s0, s0, EndContext(Canceled));
    s := ReachStep(s0, s, SeeContext);
    s := ReachStep(s0, s, ReadStatus);
    s := ReachStep(s0, s, Return);
    early := s;
    s := ReachStep(s0, s, CommandExits(e));
    s := ReachStep(s0, s, SeeEnd(false));
    s := ReachStep(s0, s, StopScan(false));
    s := ReachStep(s0, s, SeeEnd(true));
    s := ReachStep(s0, s, StopScan(true));
    s := ReachStep(s0, s, StreamersGone);
    s := ReachStep(s0, s, Finish);
  }

  /** The caller can be told success, or any code that is not the command's, without an error,
      exactly when the context was cancelled: not by a deadline and not while it is live. */
  lemma {:induction false} MisreportCondition(g: Setting, context: Context)
    requires g.pipe > 0
    ensures CanMisreport(g, context) <==> context.Canceled?
  {
    hide Feasible, After;
    if CanMisreport(g, context) {
      var acts :| Feasible(Start(g), acts) && Misreports(After(Start(g), acts)) && After(Start(g), acts).context == context;
      ReportedCode(g, acts);
    }
    var early, s := CancellationReportsSuccess(g, NoError);
    var acts :| Feasible(Start(g), acts) && After(Start(g), acts) == early;
    assert Misreports(After(Start(g), acts));
  }

  ghost predicate Reachable(s0: State, s: State) {
    exists acts :: Feasible(s0, acts) && After(s0, acts) == s
  }

  lemma {:induction false} ReachStart(s: State)
    ensures Reachable(s, s)
  {
    assert Feasible(s, []) && After(s, []) == s;
  }

  lemma {:induction false} ReachStep(s0: State, s: State, a: Action) returns (s': State)
    requires Reachable(s0, s) && Enabled(s, a)
    ensures s' == Apply(s, a) && Reachable(s0, s')
  {
    hide Apply, Enabled;
    var acts :| Feasible(s0, acts) && After(s0, acts) == s;
    s' := Apply(s, a);
    assert Front(acts + [a]) == acts;
    assert Feasible(s0, acts + [a]) && After(s0, acts + [a]) == s';
  }
}
