/** What an OpenSandbox exec session tells: the command id or the error that `Exec` is answered with,
    and the exit code and the error of the session's status. */
module OpenSandboxStatus {
  import opened Wrappers
  import opened TextLines
  import opened Reassembly
  import opened OpenSandboxExec
  import opened OpenSandboxRuns

  // ---- in terms of the events ----

  /** The first command id that is not empty. */
  function FirstId(events: seq<Event>): Option<string> {
    if events == [] then None
    else
      var before, e := FirstId(events[..|events| - 1]), events[|events| - 1];
      if before.Some? then before else if e.Init? && e.id != "" then Some(e.id) else None
  }

  /** The last exit code that an error event gives. */
  function LastCode(events: seq<Event>): Option<int> {
    if events == [] then None
    else
      var e := events[|events| - 1];
      if e.Failure? && e.code.Some? then e.code else LastCode(events[..|events| - 1])
  }

  /** The last message of an error event that is not empty. */
  function LastMessage(events: seq<Event>): string {
    if events == [] then ""
    else
      var e := events[|events| - 1];
      if e.Failure? && e.message != "" then e.message else LastMessage(events[..|events| - 1])
  }

  /** A read error at the end replaces the message. */
  function FinalMessage(events: seq<Event>, end: StreamEnd): string {
    if end.ReadError? && end.message != "" then end.message else LastMessage(events)
  }

  function EndError(end: StreamEnd): StreamError {
    if end.ReadError? then ReadFailed(end.message) else MissingInitEvent
  }

  function Seen(s: State): seq<Event> {
    if s.next <= |s.events| then s.events[..s.next] else []
  }

  // ---- the invariant ----

  /** `Exec` is sent the first id, or, at the end of a stream without one, why there is none. */
  predicate AnswerInv(s: State) {
    && (s.initSent <==> FirstId(Seen(s)).Some?)
    && (s.producer.InitReady? ==> FirstId(Seen(s)) == Some(s.producer.id))
    && (s.initCh != [] ==> FirstId(Seen(s)) == Some(s.initCh[0]))
    && (s.caller.Consuming? ==> FirstId(Seen(s)) == Some(s.caller.id))
    && (s.producer.ErrReady? ==> NoIdAtAll(s) && s.producer.error == EndError(s.end))
    && (s.errCh != [] ==> NoIdAtAll(s) && s.errCh[0] == EndError(s.end))
    && (s.caller.Failed? ==> NoIdAtAll(s) && s.caller.error == EndError(s.end))
  }

  predicate NoIdAtAll(s: State) {
    s.next == |s.events| && FirstId(s.events) == None
  }

  /** The status follows the events read; the end of the scan adds a read error. */
  predicate StatusInv(s: State) {
    && s.session.exitCode == LastCode(Seen(s))
    && (s.session.error == LastMessage(Seen(s))
        || (s.next == |s.events| && s.initSent && s.session.error == FinalMessage(s.events, s.end)))
    && (s.producer.Scanning? || s.producer.InitReady? ==> s.session.error == LastMessage(Seen(s)))
    && (AfterScan(s) ==> s.next == |s.events| && s.session.error == FinalMessage(s.events, s.end))
  }

  /** The scan is over, and nothing was given up. */
  predicate AfterScan(s: State) {
    || s.producer.FlushingOut? || s.producer.FlushingErr?
    || ((s.producer.Closing? || s.producer.Stopped?) && s.context.Live? && s.initSends == 1)
  }

  lemma {:induction false} SeenNext(s: State)
    requires s.next < |s.events|
    ensures var before, e := Seen(s), s.events[s.next];
      && s.events[..s.next + 1] == before + [e] && (before + [e])[..|before|] == before
      && FirstId(before + [e]) == (if FirstId(before).Some? then FirstId(before)
                                   else if e.Init? && e.id != "" then Some(e.id) else None)
      && LastCode(before + [e]) == (if e.Failure? && e.code.Some? then e.code else LastCode(before))
      && LastMessage(before + [e]) == (if e.Failure? && e.message != "" then e.message else LastMessage(before))
  {
    var before, e := Seen(s), s.events[s.next];
    assert (before + [e])[..|before|] == before;
  }

  lemma {:induction false} SeenAll(s: State)
    requires s.next == |s.events|
    ensures Seen(s) == s.events
  {
  }

  lemma {:induction false} ReadKeepsTold(s: State)
    requires HandshakeInv(s) && AnswerInv(s) && StatusInv(s) && Enabled(s, Read)
    ensures AnswerInv(ApplyRead(s)) && StatusInv(ApplyRead(s))
  {
    hide Writes, FirstId, LastCode, LastMessage;
    SeenNext(s);
  }

  lemma {:induction false} EndKeepsTold(s: State)
    requires ControlInv(s) && HandshakeInv(s) && AnswerInv(s) && StatusInv(s) && Enabled(s, EndOfStream)
    ensures AnswerInv(ApplyEndOfStream(s)) && StatusInv(ApplyEndOfStream(s))
  {
    hide Line, Tagged, FirstId, LastCode, LastMessage;
    SeenAll(s);
  }

  lemma {:induction false} CallerKeepsAnswer(s: State, a: Action)
    requires HandshakeInv(s) && AnswerInv(s) && Enabled(s, a) && ByCaller(a)
    ensures AnswerInv(Apply(s, a))
  {
    hide Line, Tagged, Kept, Complete, Rest, FirstId, EndError, Finished;
  }

  lemma {:induction false} ProducerKeepsAnswer(s: State, a: Action)
    requires ControlInv(s) && HandshakeInv(s) && AnswerInv(s) && Enabled(s, a)
    requires !ByCaller(a) && !a.Read? && !a.EndOfStream?
    ensures AnswerInv(Apply(s, a))
  {
    hide Line, Tagged, Kept, Complete, Rest, FirstId, EndError, Finished;
  }

  lemma {:induction false} CallerKeepsStatus(s: State, a: Action)
    requires StatusInv(s) && Enabled(s, a) && ByCaller(a)
    ensures StatusInv(Apply(s, a))
  {
    hide Line, Tagged, Kept, Complete, Rest, LastCode, LastMessage, FinalMessage;
  }

  lemma {:induction false} ProducerKeepsStatus(s: State, a: Action)
    requires ControlInv(s) && HandshakeInv(s) && StatusInv(s) && Enabled(s, a)
    requires !ByCaller(a) && !a.Read? && !a.EndOfStream?
    ensures StatusInv(Apply(s, a))
  {
    hide Line, Tagged, Kept, Complete, Rest, LastCode, LastMessage, FinalMessage;
  }

  lemma {:induction false} StepKeepsTold(s: State, a: Action)
    requires ControlInv(s) && HandshakeInv(s) && AnswerInv(s) && StatusInv(s) && Enabled(s, a)
    ensures AnswerInv(Apply(s, a)) && StatusInv(Apply(s, a))
  {
    hide ControlInv, HandshakeInv, AnswerInv, StatusInv, ApplyRead, ApplyEndOfStream;
    if a.Read? {
      ReadKeepsTold(s);
    } else if a.EndOfStream? {
      EndKeepsTold(s);
    } else if ByCaller(a) {
      CallerKeepsAnswer(s, a);
      CallerKeepsStatus(s, a);
    } else {
      ProducerKeepsAnswer(s, a);
      ProducerKeepsStatus(s, a);
    }
  }

  lemma {:induction false} ScheduleKeepsTold(events: seq<Event>, end: StreamEnd, acts: seq<Action>)
    requires Feasible(Start(events, end), acts)
    ensures var s := After(Start(events, end), acts);
      && s.events == events && s.end == end && s.next <= |events|
      && ControlInv(s) && HandshakeInv(s) && AnswerInv(s) && StatusInv(s)
  {
    hide ControlInv, HandshakeInv, AnswerInv, StatusInv, Inv, PreInv, Apply, Enabled;
    if acts == [] {
      StartTold(events, end);
      ScheduleKeepsInv(events, end, acts);
      InvControls(After(Start(events, end), acts));
    } else {
      var s, a := After(Start(events, end), Front(acts)), acts[|acts| - 1];
      ScheduleKeepsTold(events, end, Front(acts));
      StepKeepsTold(s, a);
      EndIsKept(s, a);
      ScheduleKeepsInv(events, end, acts);
      InvControls(After(Start(events, end), acts));
    }
  }

  lemma {:induction false} StartTold(events: seq<Event>, end: StreamEnd)
    ensures AnswerInv(Start(events, end)) && StatusInv(Start(events, end))
  {
    assert events[..0] == [];
  }

  lemma {:induction false} InvControls(s: State)
    requires Inv(s)
    ensures ControlInv(s) && HandshakeInv(s) && s.next <= |s.events|
  {
  }

  lemma {:induction false} EndIsKept(s: State, a: Action)
    requires Enabled(s, a)
    ensures Apply(s, a).end == s.end
  {
    hide Line, Tagged, Finished, ApplyRead, ApplyEndOfStream, ApplyWrite, ApplyAbandon;
    EndIsKeptAtRead(s);
    EndIsKeptAtWrite(s);
  }

  lemma {:induction false} EndIsKeptAtRead(s: State)
    ensures s.next < |s.events| ==> ApplyRead(s).end == s.end
    ensures ApplyEndOfStream(s).end == s.end
  {
    hide Writes, Line, Tagged, WithError, WithCode;
  }

  lemma {:induction false} EndIsKeptAtWrite(s: State)
    ensures s.writes != [] ==> ApplyWrite(s).end == s.end
    ensures ApplyAbandon(s).end == s.end
  {
    hide Kept, Complete, Rest, Tagged;
  }

  // ---- whole runs ----

  /** In every interleaving `Exec` is answered with the first command id of the stream that is not empty;
      it is given an error only when the whole stream has none, and that error is the read error if the
      stream ended in one. */
  lemma {:induction false} ExecIsAnswered(events: seq<Event>, end: StreamEnd, acts: seq<Action>)
    requires Feasible(Start(events, end), acts)
    ensures var s := After(Start(events, end), acts);
      && (s.caller.Consuming? ==> FirstId(events) == Some(s.caller.id))
      && (s.caller.Failed? ==>
            && FirstId(events) == None
            && s.caller.error == if end.ReadError? then ReadFailed(end.message) else MissingInitEvent)
  {
    ScheduleKeepsTold(events, end, acts);
    FirstIdStays(events, After(Start(events, end), acts).next);
  }

  lemma {:induction false} FirstIdStays(events: seq<Event>, n: nat)
    requires n <= |events|
    ensures FirstId(events[..n]).Some? ==> FirstId(events) == FirstId(events[..n])
  {
    if n < |events| {
      FirstIdStays(events[..|events| - 1], n);
      assert events[..|events| - 1][..n] == events[..n];
    } else {
      assert events[..n] == events;
    }
  }

  /** In every interleaving the exit code is the last one among the events read.  Once a session that was
      never cancelled has closed, the stream has been read to its end, and the error is the read error
      that ended it, or else the last message of an error event. */
  lemma {:induction false} StatusIsThatOfTheEvents(events: seq<Event>, end: StreamEnd, acts: seq<Action>)
    requires Feasible(Start(events, end), acts)
    ensures var s := After(Start(events, end), acts);
      && s.next <= |events| && s.session.exitCode == LastCode(events[..s.next])
      && (s.producer.Stopped? && s.context.Live? && s.initSends == 1 ==>
            && s.session.exitCode == LastCode(events)
            && s.session.error == if end.ReadError? && end.message != "" then end.message else LastMessage(events))
  {
    hide LastCode, LastMessage;
    ScheduleKeepsTold(events, end, acts);
    var s := After(Start(events, end), acts);
    if s.next == |events| {
      assert events[..s.next] == events;
    }
  }
}
