/** What a run must record and report, as functions of the calls that failed: the log of phases, the
    result, the returned error and the spans. */
module EngineReport {
  import opened Wrappers
  import opened EngineTranscript
  import opened EnginePlan

  datatype Entry = Entry(phase: Phase, status: Status, code: Code, err: Option<Failure>, exit: int, timedOut: bool)

  datatype RunResult = RunResult(status: Status, phase: Phase, code: Code, message: string, exit: int, timedOut: bool)

  datatype Span = Started(phase: Phase) | Ended(phase: Phase, error: bool)

  // ---- what a transcript says the run must report ----

  /** An error that carries its own code keeps it. */
  function CodeFor(code: Code, err: Failure): Code {
    if err.code.Some? then err.code.value else code
  }

  function ExecutionCode(p: Phase): Code {
    match p case Setup => SetupFailed case Verify => VerifyFailed case _ => ExecuteFailed
  }

  function DefaultCode(op: Op): Code {
    match op
    case Compatibility => UnsupportedExecutionCombo
    case Probe => CapabilityProbeFailed
    case PathRead => PolicyFSDeny
    case PathWrite => PolicyFSDeny
    case Bootstrap => CollectorUnavailable
    case NewEmitter => CollectorUnavailable
    case Capabilities => SandboxUnsupportedCapability
    case RuntimeInfo => SandboxUnsupportedCapability
    case RequiredCapabilities => SandboxUnsupportedCapability
    case KataSupport => ProviderRuntimeUnsupported
    case Create => SandboxCreateFailed
    case Start(_) => SandboxStartFailed
    case SyncIn(_) => SandboxUploadFailed
    case Network(_) => PolicyNetDeny
    case CheckCommand(_) => PolicyToolDeny
    case Secrets(_) => PolicySecretDeny
    case Plan => SetupFailed
    case NewExecutor(phase) => ExecutionCode(phase)
    case Exec(phase) => ExecutionCode(phase)
    case ResolveAdapter => ExecuteFailed
    case RewriteCommand => ExecuteFailed
    case Download(_) => SandboxDownloadFailed
    case Stat => VerifyFailed
    case Refs => CollectFailed
    case Write(artifact) => (match WrittenIn(artifact) case Setup => SetupFailed case Collect => CollectFailed case _ => ConfigInvalid)
    case _ => ConfigInvalid
  }

  predicate IsTimeout(step: Step) {
    step.op == Exec(Execute) && step.outcome.Ran?
    && (step.outcome.timedOut || (step.outcome.err.Some? && step.outcome.err.value.deadline))
  }

  /** The entry that records a fatal failure. */
  function FailureEntry(step: Step): (e: Entry)
    ensures e.status == Failed || e.status == TimedOut
    ensures e.phase == PhaseOf(step.op)
  {
    var err := FailureOf(step);
    var code := if IsTimeout(step) then Timeout else DefaultCode(step.op);
    Entry(
      PhaseOf(step.op),
      if IsTimeout(step) then TimedOut else Failed,
      if err.Some? then CodeFor(code, err.value) else code,
      err,
      if step.outcome.Ran? then step.outcome.exit else 0,
      if step.outcome.Ran? then step.outcome.timedOut else false)
  }

  /** commandError: the executor's error, else one for the exit code. */
  function CommandError(exit: int, err: Option<Failure>): Failure {
    if err.Some? then err.value else ExitError(exit)
  }

  function CommandEntry(p: Phase, exit: int, timedOut: bool, err: Option<Failure>): Entry {
    var failure := CommandError(exit, err);
    var timeout := p == Execute && (timedOut || (err.Some? && err.value.deadline));
    Entry(p, if timeout then TimedOut else Failed,
          CodeFor(if timeout then Timeout else ExecutionCode(p), failure), Some(failure), exit, timedOut)
  }

  /** An error that has a code of its own is recorded with it. */
  lemma {:induction false} OwnCodeIsKept(step: Step)
    requires FailureOf(step).Some? && FailureOf(step).value.code.Some?
    ensures FailureEntry(step).code == FailureOf(step).value.code.value
  {
    hide DefaultCode;
  }

  /** The main command ran out of time. */
  predicate RanLate(step: Step) {
    step.op == Exec(Execute) && step.outcome.Ran?
    && (step.outcome.timedOut || (step.outcome.err.Some? && step.outcome.err.value.deadline))
  }

  /** What the code of any other recorded failure tells: which check of the environment or the policy
      failed, ... */
  lemma {:induction false} EnvironmentCodeTells(cfg: Config, step: Step)
    requires FailsFatally(cfg, step) && FailureOf(step).value.code.None?
    ensures var op, code := step.op, FailureEntry(step).code;
      && (code == PolicyFSDeny <==> op.PathRead? || op.PathWrite?)
      && (code == PolicyNetDeny <==> op.Network?)
      && (code == PolicyToolDeny <==> op.CheckCommand?)
      && (code == PolicySecretDeny <==> op.Secrets?)
      && (code == UnsupportedExecutionCombo <==> op.Compatibility?)
      && (code == CapabilityProbeFailed <==> op.Probe?)
      && (code == CollectorUnavailable <==> op.Bootstrap? || op.NewEmitter?)
      && (code == SandboxUnsupportedCapability <==> op.Capabilities? || op.RuntimeInfo? || op.RequiredCapabilities?)
      && (code == ProviderRuntimeUnsupported <==> op.KataSupport?)
  {
  }

  /** ... which call on the sandbox, ... */
  lemma {:induction false} SandboxCodeTells(cfg: Config, step: Step)
    requires FailsFatally(cfg, step) && FailureOf(step).value.code.None?
    ensures var op, code := step.op, FailureEntry(step).code;
      && (code == SandboxCreateFailed <==> op.Create?)
      && (code == SandboxStartFailed <==> op.Start?)
      && (code == SandboxUploadFailed <==> op.SyncIn?)
      && (code == SandboxDownloadFailed <==> op.Download?)
  {
  }

  /** ... which step of execution, and whether it was too late, ... */
  lemma {:induction false} ExecuteCodeTells(cfg: Config, step: Step)
    requires FailsFatally(cfg, step) && FailureOf(step).value.code.None?
    requires step.op.NewExecutor? || step.op.Exec? ==>
      step.op.phase == Setup || step.op.phase == Execute || step.op.phase == Verify
    ensures var op, code := step.op, FailureEntry(step).code;
      && (code == Timeout <==> RanLate(step))
      && (code == ExecuteFailed <==> op.ResolveAdapter? || op.RewriteCommand? || op == NewExecutor(Execute)
                                     || (op == Exec(Execute) && !RanLate(step)))
  {
  }

  /** ... which step of setup, ... */
  lemma {:induction false} SetupCodeTells(cfg: Config, step: Step)
    requires FailsFatally(cfg, step) && FailureOf(step).value.code.None?
    ensures var op, code := step.op, FailureEntry(step).code;
      code == SetupFailed <==> op.Plan? || op == NewExecutor(Setup) || op == Exec(Setup)
                               || op == Write(SetupPlanFile) || op == Write(EnvironmentFile)
  {
  }

  /** ... or which step of verification or collection. */
  lemma {:induction false} CallCodeTells(cfg: Config, step: Step)
    requires FailsFatally(cfg, step) && FailureOf(step).value.code.None?
    requires step.op.NewExecutor? || step.op.Exec? ==>
      step.op.phase == Setup || step.op.phase == Execute || step.op.phase == Verify
    ensures var op, code := step.op, FailureEntry(step).code;
      && (code == VerifyFailed <==> op.Stat? || op == NewExecutor(Verify) || op == Exec(Verify))
      && (code == CollectFailed <==> op.Refs? || (op.Write? && PhaseOf(op) == Collect))
  {
  }

  lemma {:induction false} CommandFailure(cfg: Config, p: Phase, exit: int, timedOut: bool, err: Option<Failure>)
    requires p == Setup || p == Execute || p == Verify
    ensures var step := Step(Exec(p), Ran(exit, timedOut, err));
      && (FailsFatally(cfg, step) <==> err.Some? || exit != 0)
      && (FailsFatally(cfg, step) ==>
        && FailureEntry(step) == CommandEntry(p, exit, timedOut, err)
        && FailureOf(step) == Some(CommandError(exit, err)) == CommandEntry(p, exit, timedOut, err).err
        && CommandEntry(p, exit, timedOut, err).phase == p)
  {
  }

  lemma {:induction false} CommandStep(cfg: Config, s: Summary, p: Phase, exit: int, timedOut: bool, err: Option<Failure>)
    ensures var step := Step(Exec(p), Ran(exit, timedOut, err));
      Next(cfg, s, step) == s.(rank := Rank(p), failed := if FailsFatally(cfg, step) then s.failed + [step] else s.failed,
        late := if p == Execute then timedOut else s.late, cleared := None, calls := Called(s.calls, Exec(p)))
  {
  }

  function SuccessEntry(p: Phase, late: bool): Entry {
    Entry(p, Succeeded, NoCode, None, 0, if p == Execute then late else false)
  }

  function PhaseAt(rank: nat): Phase {
    if rank == 0 then Prepare else if rank == 1 then Setup else if rank == 2 then Execute
    else if rank == 3 then Verify else Collect
  }

  /** The enabled phases before the one of rank `n`, all succeeded. */
  function Successes(cfg: Config, late: bool, n: nat): seq<Entry> {
    if n == 0 then []
    else
      var before := Successes(cfg, late, n - 1);
      if cfg.Enabled(PhaseAt(n - 1)) then before + [SuccessEntry(PhaseAt(n - 1), late)] else before
  }

  lemma {:induction false} SuccessesStep(cfg: Config, late: bool, n: nat)
    ensures Successes(cfg, late, n + 1)
      == if cfg.Enabled(PhaseAt(n)) then Successes(cfg, late, n) + [SuccessEntry(PhaseAt(n), late)]
         else Successes(cfg, late, n)
  {
  }

  lemma {:induction false} SuccessesBeforeExecute(cfg: Config, a: bool, b: bool, n: nat)
    ensures n <= 2 || a == b ==> Successes(cfg, a, n) == Successes(cfg, b, n)
  {
    if 0 < n <= 2 {
      SuccessesBeforeExecute(cfg, a, b, n - 1);
    }
  }

  lemma {:induction false} SuccessesEnd(cfg: Config, late: bool, n: nat)
    requires n <= 4
    ensures var log := Successes(cfg, late, n); log != [] ==> Rank(log[|log| - 1].phase) < n
  {
    if n > 0 {
      SuccessesEnd(cfg, late, n - 1);
    }
  }

  /** Calls that leave nothing behind but their failure. */
  predicate Plain(op: Op) {
    && !op.NewWriter? && !op.NewEmitter? && !op.NewBackend? && !op.Create? && !op.Start? && !op.Metadata?
    && !op.Exec? && !op.RequireCommand? && !IsCleanup(op) && !IsUpload(op)
  }

  /** The backend, and the sandbox a call names, are there. */
  predicate Usable(s: Summary, op: Op) {
    && (UsesBackend(op) ==> s.built)
    && (op.SyncIn? ==> s.started && op.id == s.id)
    && (op.Download? ==> s.started && op.id == s.id && op.id != "")
    && (op.Secrets? && op.phase != Execute ==> s.cleared == Some(op.phase))
  }

  lemma {:induction false} MainLogEnd(cfg: Config, failed: seq<Step>, late: bool)
    ensures var log := MainLog(cfg, failed, late); log != [] ==> log[|log| - 1].phase != Collect
  {
    SuccessesEnd(cfg, late, 4);
  }

  /** Only a failure `r` of collection was added to the failures. */
  ghost predicate SameMain(a: Summary, b: Summary, r: Option<Failure>) {
    if r.None? then b.failed == a.failed
    else |b.failed| == |a.failed| + 1 && a.failed <= b.failed && FailedInCollect(b.failed)
  }

  lemma {:induction false} LogAfterCollectFailure(cfg: Config, failed: seq<Step>, late: bool, step: Step)
    requires |failed| <= 1 && (failed != [] ==> FailedInMain(failed)) && PhaseOf(step.op) == Collect
    ensures FailedInCollect(failed + [step]) && MainRank(failed + [step]) == MainRank(failed)
    ensures var main := MainLog(cfg, failed, late);
      ExpectedLog(cfg, failed + [step], late)
      == (if step.op == Write(Replay) then main else main + [SuccessEntry(Collect, false)]) + [FailureEntry(step)]
  {
    hide Successes, FailureEntry, PhaseOf;
    assert (failed + [step])[|failed|] == step;
    assert MainLog(cfg, failed + [step], late) == MainLog(cfg, failed, late);
  }

  lemma {:induction false} BracketsAfterCollectFailure(main: seq<Entry>, e: Entry)
    requires e.phase == Collect && e.status != Succeeded && (main != [] ==> main[|main| - 1].phase != Collect)
    ensures Brackets(main + [e]) == Brackets(main) + [Started(Collect)] + [Ended(Collect, true)]
    ensures Brackets(main + [SuccessEntry(Collect, false)] + [e])
      == Brackets(main) + [Started(Collect)] + [Ended(Collect, true)]
  {
    BracketsSnoc(main, e);
    var log := main + [SuccessEntry(Collect, false)] + [e];
    assert log[..|log| - 2] == main;
    assert [Started(Collect), Ended(Collect, true)] == [Started(Collect)] + [Ended(Collect, true)];
  }

  predicate CollectOp(op: Op) {
    (op.Write? || op.Refs?) && PhaseOf(op) == Collect && DefaultCode(op) == CollectFailed
  }

  lemma {:induction false} CollectOpAllowed(cfg: Config, s: Summary, op: Op)
    requires CollectOp(op) && s.writer && s.rank <= 4 && |s.failed| <= 1 && (s.failed != [] ==> FailedInMain(s.failed))
    ensures Allowed(cfg, s, op)
  {
  }

  lemma {:induction false} CollectOpStep(cfg: Config, s: Summary, op: Op, err: Option<Failure>)
    requires CollectOp(op)
    ensures var step := Step(op, Done(err));
      Next(cfg, s, step) == s.(rank := 4, failed := if err.Some? then s.failed + [step] else s.failed,
                               calls := Called(s.calls, op))
    ensures PhaseOf(op) == Collect && DefaultCode(op) == CollectFailed
  {
  }

  /** Calls of collection whose errors are only noted. */
  predicate QuietOp(s: Summary, op: Op) {
    || (op.SyncOut? && op.id == s.id != "") || (op.Endpoints? && op.id == s.id)
    || (op.DevMetadata? && op.phase == Collect && op.id == s.id)
  }

  lemma {:induction false} QuietAllowed(cfg: Config, s: Summary, op: Op)
    requires QuietOp(s, op) && s.rank <= 4 && |s.failed| <= 1 && (s.failed != [] ==> FailedInMain(s.failed))
    requires s.built && s.emitter && s.writer && s.cleanups == 0 && s.creates == 1
    ensures Allowed(cfg, s, op)
  {
  }

  lemma {:induction false} QuietStep(cfg: Config, s: Summary, op: Op, err: Option<Failure>)
    requires QuietOp(s, op)
    ensures Next(cfg, s, Step(op, Done(err))) == s.(rank := 4, calls := Called(s.calls, op))
  {
  }

  lemma {:induction false} UploadAllowed(cfg: Config, s: Summary, op: Op)
    requires IsUpload(op) && s.rank <= 4 && |s.failed| <= 1 && (s.failed != [] ==> s.writer && FailedInMain(s.failed))
    requires s.upload.None?
    ensures Allowed(cfg, s, op)
  {
  }

  lemma {:induction false} UploadStep(cfg: Config, s: Summary, op: Op, err: Option<Failure>)
    requires IsUpload(op)
    ensures Next(cfg, s, Step(op, Done(err))) == s.(rank := 4, upload := err, calls := Called(s.calls, op))
  {
  }

  lemma {:induction false} CleanupStep(cfg: Config, s: Summary, op: Op, err: Option<Failure>)
    requires IsCleanup(op)
    ensures Next(cfg, s, Step(op, Done(err)))
      == s.(rank := 4, cleanups := s.cleanups + 1, calls := Called(s.calls, op),
            cleanupFailed := if op.Keep? then s.cleanupFailed else err.Some?)
  {
  }

  /** An error of cleanup, or of an upload, makes a success partial. */
  lemma {:induction false} PartialCleanup(r: RunResult, failed: seq<Step>, err: Option<Failure>)
    requires Reports(r, failed, false, None)
    ensures Reports(if err.Some? && r.status == Succeeded then r.(status := Partial) else r, failed, err.Some?, None)
  {
  }

  lemma {:induction false} PartialUpload(r: RunResult, failed: seq<Step>, cleanupFailed: bool, err: Option<Failure>)
    requires Reports(r, failed, cleanupFailed, None)
    ensures Reports(if err.Some? && r.status == Succeeded then
        r.(status := Partial, code := ArtifactUploadFailed, message := err.value.text) else r,
      failed, cleanupFailed, err)
  {
  }

  predicate FailsWith(cfg: Config, p: Phase, op: Op, code: Code) {
    p != Collect && PhaseOf(op) == p && DefaultCode(op) == code && IsFatal(cfg, op) && Plain(op)
  }

  lemma {:induction false} PlainAllowed(cfg: Config, p: Phase, s: Summary, op: Op, code: Code)
    requires FailsWith(cfg, p, op, code) && Usable(s, op) && cfg.Enabled(p) && s.rank <= Rank(p)
    requires s.failed == [] && s.writer && (s.built ==> s.emitter) && s.cleanups == 0
    ensures Allowed(cfg, s, op)
  {
  }

  lemma {:induction false} PlainStep(cfg: Config, p: Phase, s: Summary, op: Op, code: Code, err: Option<Failure>)
    requires FailsWith(cfg, p, op, code)
    ensures var step := Step(op, Done(err));
      && Next(cfg, s, step) == s.(rank := Rank(p), failed := if err.Some? then s.failed + [step] else s.failed,
           cleared := if op.CheckCommand? && err.None? then Some(op.phase) else s.cleared, calls := Called(s.calls, op))
      && (err.Some? ==> FailureEntry(step) == Entry(p, Failed, CodeFor(code, err.value), err, 0, false))
  {
  }

  predicate SameSandbox(a: Summary, b: Summary) {
    a.id == b.id && a.creates == b.creates && a.started == b.started && a.built == b.built && a.emitter == b.emitter
    && a.cleared == b.cleared && a.created == b.created
  }

  /** What a successful call that leaves nothing behind changes. */
  predicate Noted(a: Summary, b: Summary, op: Op) {
    && a.created == b.created && b.cleared == (if op.CheckCommand? then Some(op.phase) else a.cleared)
    && a.id == b.id && a.creates == b.creates && a.started == b.started && a.built == b.built && a.emitter == b.emitter
  }

  /** A call of the phase that is going on. */
  lemma {:induction false} ProgressKept(cfg: Config, n: nat, calls: Calls, op: Op)
    requires Progress(cfg, n, calls) && (Rank(PhaseOf(op)) == n || PhaseOf(op) == Collect)
    ensures Progress(cfg, n, Called(calls, op))
    ensures Called(calls, op).collect == if PhaseOf(op) == Collect then calls.collect + [op] else calls.collect
  {
    hide PhaseOf, Listed, PlanOf;
  }

  /** The rank of the phase that failed, or of collection. */
  function MainRank(failed: seq<Step>): nat {
    if FailedInMain(failed) then Rank(PhaseOf(failed[0].op)) else 4
  }

  predicate FailedInMain(failed: seq<Step>) {
    failed != [] && PhaseOf(failed[0].op) != Collect
  }

  predicate FailedInCollect(failed: seq<Step>) {
    failed != [] && PhaseOf(failed[|failed| - 1].op) == Collect
  }

  /** The calls of the main phases: those of their plans, in the phase that failed the first of them. */
  ghost predicate MainMade(cfg: Config, failed: seq<Step>, calls: Calls) {
    && Progress(cfg, MainRank(failed), calls)
    && (FailedInMain(failed) ==>
          var p := PhaseOf(failed[0].op); Follows(calls.Of(p), PlanOf(cfg, "", p)))
  }

  lemma {:induction false} MainMadeKept(cfg: Config, failed: seq<Step>, calls: Calls, op: Op)
    requires MainMade(cfg, failed, calls) && PhaseOf(op) == Collect
    ensures MainMade(cfg, failed, Called(calls, op))
  {
    hide Progress, PlanOf, Follows, MainRank;
    ProgressKept(cfg, MainRank(failed), calls, op);
  }

  lemma {:induction false} MainMadeThenFailed(cfg: Config, failed: seq<Step>, step: Step, calls: Calls)
    requires MainMade(cfg, failed, calls) && PhaseOf(step.op) == Collect
    ensures MainMade(cfg, failed + [step], calls)
  {
    hide Progress, PlanOf, Follows;
  }

  lemma {:induction false} PlanIgnoresId(cfg: Config, id: string, p: Phase)
    requires p != Collect
    ensures PlanOf(cfg, id, p) == PlanOf(cfg, "", p)
  {
  }

  lemma {:induction false} CleanupIsOne(cfg: Config, id: string)
    ensures IsCleanup(CleanupOp(cfg, id)) && CleanupOp(cfg, id).id == id && PhaseOf(CleanupOp(cfg, id)) == Collect
  {
  }

  /** The main phases: successes, up to and including the first failure. */
  function MainLog(cfg: Config, failed: seq<Step>, late: bool): seq<Entry> {
    if FailedInMain(failed) then
      Successes(cfg, late, Rank(PhaseOf(failed[0].op))) + [FailureEntry(failed[0])]
    else Successes(cfg, late, 4)
  }

  /** Collection: succeeded, or failed; both when something failed after its success was recorded,
      that is, anything but writing the replay manifest. */
  function CollectLog(failed: seq<Step>): seq<Entry> {
    if !FailedInCollect(failed) then [SuccessEntry(Collect, false)]
    else
      var last := failed[|failed| - 1];
      if last.op == Write(Replay) then [FailureEntry(last)]
      else [SuccessEntry(Collect, false), FailureEntry(last)]
  }

  function ExpectedLog(cfg: Config, failed: seq<Step>, late: bool): seq<Entry> {
    MainLog(cfg, failed, late) + CollectLog(failed)
  }

  /** The first fatal failure, else what an upload returned. */
  function Verdict(failed: seq<Step>, upload: Option<Failure>): Option<Failure> {
    if failed != [] then FailureOf(failed[0]) else upload
  }

  /** The result reports the last recorded failure; without one, an error of cleanup or upload
      makes it partial. */
  predicate Reports(r: RunResult, failed: seq<Step>, cleanupFailed: bool, upload: Option<Failure>) {
    if failed != [] then
      var last := FailureEntry(failed[|failed| - 1]);
      && r.status == last.status && r.code == last.code && r.exit == last.exit && r.timedOut == last.timedOut
      && last.err.Some? && r.message == last.err.value.text
    else
      && r.exit == 0 && !r.timedOut
      && r.status == (if cleanupFailed || upload.Some? then Partial else Succeeded)
      && r.code == (if !cleanupFailed && upload.Some? then ArtifactUploadFailed else NoCode)
  }

  /** Each phase has one span, which ends before the next begins; a second entry of the same
      phase belongs to the same span. */
  function Brackets(log: seq<Entry>): seq<Span> {
    if log == [] then []
    else
      var last := log[|log| - 1];
      var span := [Started(last.phase), Ended(last.phase, last.status != Succeeded)];
      if |log| > 1 && log[|log| - 2].phase == last.phase then Brackets(log[..|log| - 2]) + span
      else Brackets(log[..|log| - 1]) + span
  }

  lemma {:induction false} BracketsSnoc(log: seq<Entry>, e: Entry)
    ensures (log == [] || log[|log| - 1].phase != e.phase) ==>
      Brackets(log + [e]) == Brackets(log) + [Started(e.phase)] + [Ended(e.phase, e.status != Succeeded)]
  {
    if log == [] || log[|log| - 1].phase != e.phase {
      assert (log + [e])[..|log|] == log;
      assert [Started(e.phase), Ended(e.phase, e.status != Succeeded)]
        == [Started(e.phase)] + [Ended(e.phase, e.status != Succeeded)];
    }
  }
}
