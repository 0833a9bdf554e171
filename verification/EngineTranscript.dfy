/** The vocabulary of the phase engine, and what a transcript of its calls to the environment
    means.

    Every fallible call of the engine (policy, artifact writer, backend, executor, uploader) is an
    `Op`; a run leaves a transcript of ops with their outcomes.  `Allowed` is the protocol, a
    state machine over a summary of the transcript; the lemmas at the end say what every lawful
    transcript has, call by call.
 */
module EngineTranscript {
  import opened Wrappers

  datatype Phase = Prepare | Setup | Execute | Verify | Collect

  datatype Status = Created | Succeeded | Failed | TimedOut | Aborted | Partial

  datatype Code =
    | NoCode | ConfigInvalid | UnsupportedExecutionCombo | CapabilityProbeFailed | PolicyFSDeny
    | PolicyNetDeny | PolicyToolDeny | PolicySecretDeny | CollectorUnavailable
    | SandboxUnsupportedCapability | ProviderRuntimeUnsupported | SandboxCreateFailed
    | SandboxStartFailed | SandboxUploadFailed | SandboxDownloadFailed | SetupFailed | ExecuteFailed
    | VerifyFailed | Timeout | CollectFailed | ArtifactUploadFailed | Custom(name: string)

  /** An error: `code` is that of a RunnerError it wraps, `deadline` that it wraps DeadlineExceeded. */
  datatype Failure = Failure(text: string, code: Option<Code>, deadline: bool)

  datatype Kind = OpenSandbox | DevContainer | AppleContainer | OrbStackMachine | Unmanaged

  datatype CleanupMode = KeepMode | PauseMode | PauseElseKeepMode | StopMode | DeleteMode | OtherMode

  /** Outcomes on which it depends which calls follow, named in advance: the identifier that creating
      the sandbox returns, the one that a refresh of its metadata returns (`None`: an error), whether
      the backend reports that it can pause and resume, and whether the upload of the artifacts
      succeeds. */
  datatype Answers = Answers(sandboxId: string, refreshedId: Option<string>, pauseResume: bool, uploads: bool)

  /** What the engine reads of the normalised configuration, how many steps the setup plan has, which
      optional interfaces the backend implements, and the answers of its environment. */
  datatype Config = Config(
    kind: Kind, cleanup: CleanupMode, kata: bool,
    setup: bool, execute: bool, verify: bool,
    hasCommand: bool, hasSmoke: bool, verifyProfile: bool, steps: nat, expected: nat, upload: bool,
    syncer: bool, devProvider: bool, metadataProvider: bool, downloader: bool, machineName: bool,
    answers: Answers)
  {
    predicate Managed() { !kind.Unmanaged? }

    predicate Enabled(p: Phase) {
      match p
      case Setup => setup
      case Execute => execute
      case Verify => verify
      case _ => true
    }
  }

  datatype Artifact =
    | Context | Provider | BackendProfile | Runtime | SandboxFile | ContainerFile | MachineFile
    | SetupPlanFile | EnvironmentFile
    | Replay | Phases | Results | Index | FinalResults | FinalIndex

  datatype Op =
    | AbsWorkspace | AbsArtifactDir | Compatibility | Probe | Features | MkArtifactDir | NewWriter
    | PathRead | PathWrite | Bootstrap | NewEmitter
    | NewBackend | Capabilities | RuntimeInfo | KataSupport | RequiredCapabilities
    | Create | Start(id: string) | SyncIn(id: string) | DevMetadata(phase: Phase, id: string)
    | Write(artifact: Artifact)
    | Network(phase: Phase) | Plan | NewExecutor(phase: Phase)
    | CheckCommand(phase: Phase) | Secrets(phase: Phase) | Exec(phase: Phase)
    | RequireCommand | ResolveAdapter | RewriteCommand
    | Download(id: string) | Stat
    | SyncOut(id: string) | Metadata(id: string) | Endpoints(id: string)
    | Keep(id: string) | Pause(id: string) | Delete(id: string)
    | Refs | Upload | UploadSummary

  datatype Outcome =
    | Done(err: Option<Failure>)
    | Info(id: string)
    | Ran(exit: int, timedOut: bool, err: Option<Failure>)

  datatype Step = Step(op: Op, outcome: Outcome)

  type Transcript = seq<Step>

  function WrittenIn(artifact: Artifact): Phase {
    match artifact
    case SetupPlanFile => Setup
    case EnvironmentFile => Setup
    case Replay => Collect
    case Phases => Collect
    case Results => Collect
    case Index => Collect
    case FinalResults => Collect
    case FinalIndex => Collect
    case _ => Prepare
  }

  function PhaseOf(op: Op): Phase {
    match op
    case DevMetadata(phase, _) => phase
    case Write(artifact) => WrittenIn(artifact)
    case Network(phase) => phase
    case Plan => Setup
    case NewExecutor(phase) => phase
    case CheckCommand(phase) => phase
    case Secrets(phase) => phase
    case Exec(phase) => phase
    case RequireCommand => Execute
    case ResolveAdapter => Execute
    case RewriteCommand => Execute
    case Download(_) => Verify
    case Stat => Verify
    case SyncOut(_) => Collect
    case Metadata(_) => Collect
    case Endpoints(_) => Collect
    case Keep(_) => Collect
    case Pause(_) => Collect
    case Delete(_) => Collect
    case Refs => Collect
    case Upload => Collect
    case UploadSummary => Collect
    case _ => Prepare
  }

  function Rank(p: Phase): nat {
    match p case Prepare => 0 case Setup => 1 case Execute => 2 case Verify => 3 case Collect => 4
  }

  predicate IsCleanup(op: Op) {
    op.Keep? || op.Pause? || op.Delete?
  }

  /** Uploads do not fail the phase; the errors of these other calls are only noted. */
  predicate IsUpload(op: Op) {
    op.Upload? || op.UploadSummary?
  }

  predicate IsFatal(cfg: Config, op: Op) {
    && !IsUpload(op) && !IsCleanup(op)
    && !op.DevMetadata? && !op.SyncOut? && !op.Metadata? && !op.Endpoints?
    && (op == Network(Verify) ==> cfg.verifyProfile)
  }

  /** The error of a command that ran to an exit code other than zero. */
  function ExitError(exit: int): Failure {
    Failure("exited with code", None, false)
  }

  function FailureOf(step: Step): Option<Failure> {
    match step.outcome
    case Done(err) => err
    case Info(_) => None
    case Ran(exit, _, err) => if err.Some? then err else if exit != 0 then Some(ExitError(exit)) else None
  }

  predicate FailsFatally(cfg: Config, step: Step) {
    IsFatal(cfg, step.op) && FailureOf(step).Some?
  }

  /** The calls whose failure fails a phase, in order. */
  function Failures(cfg: Config, t: Transcript): seq<Step> {
    if t == [] then []
    else
      var front, last := Failures(cfg, t[..|t| - 1]), t[|t| - 1];
      if FailsFatally(cfg, last) then front + [last] else front
  }

  // ---- the summary of a transcript ----

  /** The calls of each phase, in order. */
  datatype Calls = Calls(prepare: seq<Op>, setup: seq<Op>, execute: seq<Op>, verify: seq<Op>, collect: seq<Op>) {
    function Of(p: Phase): seq<Op> {
      match p
      case Prepare => prepare
      case Setup => setup
      case Execute => execute
      case Verify => verify
      case Collect => collect
    }

    function With(p: Phase, ops: seq<Op>): Calls {
      match p
      case Prepare => this.(prepare := ops)
      case Setup => this.(setup := ops)
      case Execute => this.(execute := ops)
      case Verify => this.(verify := ops)
      case Collect => this.(collect := ops)
    }
  }

  datatype Summary = Summary(
    failed: seq<Step>, upload: Option<Failure>, cleanupFailed: bool, rank: nat,
    writer: bool, emitter: bool, built: bool,
    creates: nat, id: string, started: bool, cleanups: nat, late: bool, cleared: Option<Phase>,
    created: string, calls: Calls)

  const FRESH :=
    Summary([], None, false, 0, false, false, false, 0, "", false, 0, false, None, "", Calls([], [], [], [], []))

  /** One more call of its phase. */
  function Called(calls: Calls, op: Op): Calls {
    calls.With(PhaseOf(op), calls.Of(PhaseOf(op)) + [op])
  }

  function Next(cfg: Config, s: Summary, step: Step): Summary {
    var op, ok := step.op, FailureOf(step).None?;
    Summary(
      if FailsFatally(cfg, step) then s.failed + [step] else s.failed,
      if IsUpload(op) then FailureOf(step) else s.upload,
      if op.Pause? || op.Delete? then !ok else s.cleanupFailed,
      Rank(PhaseOf(op)),
      if op.NewWriter? then ok else s.writer,
      if op.NewEmitter? then ok else s.emitter,
      if op.NewBackend? then ok else s.built,
      if op.Create? then s.creates + 1 else s.creates,
      if (op.Create? || op.Metadata?) && step.outcome.Info? then step.outcome.id else s.id,
      if op.Start? then ok else s.started,
      if IsCleanup(op) then s.cleanups + 1 else s.cleanups,
      if op == Exec(Execute) && step.outcome.Ran? then step.outcome.timedOut else s.late,
      if op.CheckCommand? && ok then Some(op.phase) else if op.Exec? then None else s.cleared,
      if op.Create? && step.outcome.Info? then step.outcome.id else s.created,
      Called(s.calls, op))
  }

  function Fold(cfg: Config, t: Transcript): Summary {
    if t == [] then FRESH else Next(cfg, Fold(cfg, t[..|t| - 1]), t[|t| - 1])
  }

  // ---- the protocol ----

  predicate UsesBackend(op: Op) {
    || op.Capabilities? || op.RuntimeInfo? || op.Create? || op.Start? || op.SyncIn? || op.DevMetadata?
    || op.Exec? || op.Download? || op.SyncOut? || op.Metadata? || op.Endpoints? || IsCleanup(op)
  }

  predicate Allowed(cfg: Config, s: Summary, op: Op) {
    && s.rank <= Rank(PhaseOf(op)) && cfg.Enabled(PhaseOf(op))
    // after a failure only collection goes on, and only once artifacts can be written
    && (s.failed != [] ==> s.writer && PhaseOf(op) == Collect && PhaseOf(s.failed[|s.failed| - 1].op) != Collect)
    && (UsesBackend(op) ==> s.built && s.emitter && s.writer && s.cleanups == 0)
    && match op
       case NewWriter => !s.writer
       case NewEmitter => !s.emitter && s.writer
       case NewBackend => !s.built && s.emitter
       case Create => cfg.Managed() && s.creates == 0
       case Start(id) => s.creates == 1 && id == s.id && !s.started
       case SyncIn(id) => s.started && id == s.id
       case DevMetadata(_, id) => s.creates == 1 && id == s.id
       case Exec(phase) =>
         && (phase == Setup || phase == Execute || phase == Verify)
         && s.cleared == Some(phase) && (cfg.Managed() ==> s.started)
         && (phase == Execute ==> cfg.hasCommand) && (phase == Verify ==> cfg.hasSmoke)
       case Secrets(phase) => phase == Setup || phase == Verify ==> s.cleared == Some(phase)
       case RequireCommand => !cfg.hasCommand
       case Download(id) => s.started && id == s.id && id != ""
       case SyncOut(id) => s.creates == 1 && id == s.id && id != ""
       case Metadata(id) => s.creates == 1 && id == s.id && id != ""
       case Endpoints(id) => s.creates == 1 && id == s.id
       case Keep(id) => id == s.id && id != ""
       case Pause(id) => id == s.id && id != ""
       case Delete(id) => id == s.id && id != ""
       case Write(_) => s.writer
       case Upload => s.upload.None?
       case UploadSummary => s.upload.None?
       case _ => true
  }

  /** What kind of outcome a call has, according to the answers. */
  predicate Fits(cfg: Config, step: Step) {
    match step.op
    case Exec(_) => step.outcome.Ran?
    case Create => step.outcome == Info(cfg.answers.sandboxId) || (step.outcome.Done? && step.outcome.err.Some?)
    case Metadata(_) =>
      (match cfg.answers.refreshedId case Some(id) => step.outcome == Info(id)
       case None => step.outcome.Done? && step.outcome.err.Some?)
    case RequireCommand => step.outcome.Done? && step.outcome.err.Some?
    case Upload => step.outcome.Done? && (step.outcome.err.None? <==> cfg.answers.uploads)
    case _ => step.outcome.Done?
  }

  ghost predicate Lawful(cfg: Config, t: Transcript) {
    t != [] ==>
      && Lawful(cfg, t[..|t| - 1]) && Fits(cfg, t[|t| - 1])
      && Allowed(cfg, Fold(cfg, t[..|t| - 1]), t[|t| - 1].op)
  }

  // ---- what every lawful transcript has ----

  lemma {:induction false} LawfulPrefix(cfg: Config, t: Transcript, n: nat)
    requires Lawful(cfg, t) && n <= |t|
    ensures Lawful(cfg, t[..n])
    decreases |t|
  {
    if n < |t| {
      LawfulPrefix(cfg, t[..|t| - 1], n);
      assert t[..|t| - 1][..n] == t[..n];
    } else {
      assert t[..n] == t;
    }
  }

  /** Each call is allowed by what came before it. */
  lemma {:induction false} LawfulAt(cfg: Config, t: Transcript, i: nat)
    requires Lawful(cfg, t) && i < |t|
    ensures Allowed(cfg, Fold(cfg, t[..i]), t[i].op) && Fits(cfg, t[i])
    ensures Fold(cfg, t[..i + 1]) == Next(cfg, Fold(cfg, t[..i]), t[i])
  {
    LawfulPrefix(cfg, t, i + 1);
    assert t[..i + 1][..i] == t[..i];
  }

  /** Facts of the summary that no later call takes back. */
  predicate Keeps(a: Summary, b: Summary) {
    && a.rank <= b.rank && a.creates <= b.creates && a.cleanups <= b.cleanups
    && a.failed <= b.failed && (a.writer ==> b.writer) && (a.emitter ==> b.emitter) && (a.built ==> b.built)
    && (a.started ==> b.started)
  }

  lemma {:induction false} StepKeeps(cfg: Config, s: Summary, step: Step)
    requires Allowed(cfg, s, step.op)
    ensures Keeps(s, Next(cfg, s, step))
  {
  }

  lemma {:induction false} Monotone(cfg: Config, t: Transcript, i: nat, j: nat)
    requires Lawful(cfg, t) && i <= j <= |t|
    ensures Keeps(Fold(cfg, t[..i]), Fold(cfg, t[..j]))
    decreases j
  {
    hide Fold, Next, Allowed, Lawful;
    if i < j {
      Monotone(cfg, t, i, j - 1);
      LawfulAt(cfg, t, j - 1);
      StepKeeps(cfg, Fold(cfg, t[..j - 1]), t[j - 1]);
    }
  }

  lemma {:induction false} CreatedAtMostOnce(cfg: Config, t: Transcript, i: nat, j: nat)
    requires Lawful(cfg, t) && i < j < |t|
    ensures !(t[i].op.Create? && t[j].op.Create?)
  {
    hide Fold;
    LawfulAt(cfg, t, i);
    LawfulAt(cfg, t, j);
    Monotone(cfg, t, i + 1, j);
  }

  /** Cleanup is the last use of the backend, so it happens at most once and after every command. */
  lemma {:induction false} NothingAfterCleanup(cfg: Config, t: Transcript, i: nat, j: nat)
    requires Lawful(cfg, t) && i < j < |t| && IsCleanup(t[i].op)
    ensures !UsesBackend(t[j].op)
  {
    hide Fold;
    LawfulAt(cfg, t, i);
    LawfulAt(cfg, t, j);
    Monotone(cfg, t, i + 1, j);
  }

  /** The phases of the calls come in the declared order. */
  lemma {:induction false} PhasesInOrder(cfg: Config, t: Transcript, i: nat, j: nat)
    requires Lawful(cfg, t) && i < j < |t|
    ensures Rank(PhaseOf(t[i].op)) <= Rank(PhaseOf(t[j].op))
  {
    hide Fold;
    LawfulAt(cfg, t, i);
    LawfulAt(cfg, t, j);
    Monotone(cfg, t, i + 1, j);
    RankOfNext(cfg, Fold(cfg, t[..i]), t[i]);
  }

  lemma {:induction false} RankOfNext(cfg: Config, s: Summary, step: Step)
    ensures Next(cfg, s, step).rank == Rank(PhaseOf(step.op))
  {
  }

  lemma {:induction false} FailedOfNext(cfg: Config, s: Summary, step: Step)
    ensures Next(cfg, s, step).failed == if FailsFatally(cfg, step) then s.failed + [step] else s.failed
  {
  }

  /** After the first fatal failure only collection goes on, and nothing after a failed collection. */
  lemma {:induction false} AfterFailure(cfg: Config, t: Transcript, i: nat, j: nat)
    requires Lawful(cfg, t) && i < j < |t| && FailsFatally(cfg, t[i])
    ensures PhaseOf(t[i].op) != Collect && PhaseOf(t[j].op) == Collect
  {
    hide Fold;
    var before, after, later := Fold(cfg, t[..i]), Fold(cfg, t[..i + 1]), Fold(cfg, t[..j]);
    LawfulAt(cfg, t, i);
    LawfulAt(cfg, t, j);
    Monotone(cfg, t, i + 1, j);
    FailedOfNext(cfg, before, t[i]);
    RankOfNext(cfg, before, t[i]);
    hide Next, FailsFatally;
    assert after.failed[|before.failed|] == t[i] == later.failed[|before.failed|];
    CollectFailure(cfg, t, j);
  }

  /** A failed collection is the last failure. */
  ghost predicate CollectFailsLast(failed: seq<Step>) {
    forall k :: 0 <= k < |failed| && PhaseOf(failed[k].op) == Collect ==> k == |failed| - 1
  }

  lemma {:induction false} CollectFailureStep(cfg: Config, s: Summary, step: Step)
    requires Allowed(cfg, s, step.op) && CollectFailsLast(s.failed)
    ensures CollectFailsLast(Next(cfg, s, step).failed)
  {
    hide PhaseOf;
    FailedOfNext(cfg, s, step);
  }

  lemma {:induction false} FoldOfNothing(cfg: Config, t: Transcript)
    ensures Fold(cfg, t[..0]) == FRESH
  {
  }

  lemma {:induction false} CollectFailure(cfg: Config, t: Transcript, n: nat)
    requires Lawful(cfg, t) && n <= |t|
    ensures CollectFailsLast(Fold(cfg, t[..n]).failed)
  {
    hide Fold, Next, Allowed, PhaseOf;
    if n == 0 {
      FoldOfNothing(cfg, t);
    } else {
      CollectFailure(cfg, t, n - 1);
      LawfulAt(cfg, t, n - 1);
      CollectFailureStep(cfg, Fold(cfg, t[..n - 1]), t[n - 1]);
    }
  }

  /** A command runs only in a sandbox that was created and started, whenever one is managed. */
  lemma {:induction false} ExecAfterStart(cfg: Config, t: Transcript, j: nat)
    requires Lawful(cfg, t) && j < |t| && t[j].op.Exec? && cfg.Managed()
    ensures exists i :: 0 <= i < j && t[i].op.Start? && FailureOf(t[i]).None?
  {
    LawfulAt(cfg, t, j);
    StartedMeans(cfg, t, j);
  }

  lemma {:induction false} StartedMeans(cfg: Config, t: Transcript, n: nat)
    requires Lawful(cfg, t) && n <= |t| && Fold(cfg, t[..n]).started
    ensures exists i :: 0 <= i < n && t[i].op.Start? && FailureOf(t[i]).None?
  {
    hide Fold, Next, Allowed, Lawful, FailureOf, Fits;
    FoldOfNothing(cfg, t);
    if n > 0 {
      LawfulAt(cfg, t, n - 1);
      StartedOfNext(cfg, Fold(cfg, t[..n - 1]), t[n - 1]);
      if t[n - 1].op.Start? {
        assert FailureOf(t[n - 1]).None?;
      } else {
        StartedMeans(cfg, t, n - 1);
      }
    }
  }

  lemma {:induction false} StartedOfNext(cfg: Config, s: Summary, step: Step)
    ensures Next(cfg, s, step).started == if step.op.Start? then FailureOf(step).None? else s.started
  {
  }

  /** A command runs only after the policy has let it pass, anew for every command. */
  lemma {:induction false} ExecAfterCheck(cfg: Config, t: Transcript, j: nat) returns (i: nat)
    requires Lawful(cfg, t) && j < |t| && t[j].op.Exec?
    ensures i < j && t[i].op == CheckCommand(t[j].op.phase) && FailureOf(t[i]).None?
    ensures forall k :: i < k < j ==> !t[k].op.Exec?
  {
    LawfulAt(cfg, t, j);
    i := ClearedMeans(cfg, t, j, t[j].op.phase);
  }

  /** In setup and verification secrets are resolved only for a command that the policy has let pass. */
  lemma {:induction false} SecretsAfterCheck(cfg: Config, t: Transcript, j: nat) returns (i: nat)
    requires Lawful(cfg, t) && j < |t| && (t[j].op == Secrets(Setup) || t[j].op == Secrets(Verify))
    ensures i < j && t[i].op == CheckCommand(t[j].op.phase) && FailureOf(t[i]).None?
    ensures forall k :: i < k < j ==> !t[k].op.Exec?
  {
    LawfulAt(cfg, t, j);
    i := ClearedMeans(cfg, t, j, t[j].op.phase);
  }

  lemma {:induction false} ClearedMeans(cfg: Config, t: Transcript, n: nat, p: Phase) returns (i: nat)
    requires Lawful(cfg, t) && n <= |t| && Fold(cfg, t[..n]).cleared == Some(p)
    ensures i < n && t[i].op == CheckCommand(p) && FailureOf(t[i]).None?
    ensures forall k :: i < k < n ==> !t[k].op.Exec?
  {
    hide Fold, Lawful, Next, Allowed, FailureOf, Fits;
    NothingClearedYet(cfg, t, n);
    LawfulAt(cfg, t, n - 1);
    ClearedOfNext(cfg, Fold(cfg, t[..n - 1]), t[n - 1]);
    if t[n - 1].op.CheckCommand? && FailureOf(t[n - 1]).None? {
      i := n - 1;
    } else {
      i := ClearedMeans(cfg, t, n - 1, p);
    }
  }

  lemma {:induction false} NothingClearedYet(cfg: Config, t: Transcript, n: nat)
    requires n <= |t| && Fold(cfg, t[..n]).cleared.Some?
    ensures n > 0
  {
  }

  lemma {:induction false} ClearedOfNext(cfg: Config, s: Summary, step: Step)
    ensures Next(cfg, s, step).cleared
      == if step.op.CheckCommand? && FailureOf(step).None? then Some(step.op.phase)
         else if step.op.Exec? then None else s.cleared
  {
  }

  // ---- counting ----

  function Cleanups(t: Transcript): nat {
    if t == [] then 0 else Cleanups(t[..|t| - 1]) + if IsCleanup(t[|t| - 1].op) then 1 else 0
  }

  /** The calls of phase `p`, in order. */
  function CallsOf(t: Transcript, p: Phase): seq<Op> {
    if t == [] then []
    else
      var front, op := CallsOf(t[..|t| - 1], p), t[|t| - 1].op;
      if PhaseOf(op) == p then front + [op] else front
  }

  /** How often `op` is called. */
  function Count(t: Transcript, op: Op): nat {
    if t == [] then 0 else Count(t[..|t| - 1], op) + if t[|t| - 1].op == op then 1 else 0
  }

  /** The identifier that creating the sandbox returned. */
  function CreatedId(t: Transcript): string {
    if t == [] then ""
    else if t[|t| - 1].op.Create? && t[|t| - 1].outcome.Info? then t[|t| - 1].outcome.id
    else CreatedId(t[..|t| - 1])
  }

  lemma {:induction false} FoldCounts(cfg: Config, t: Transcript)
    ensures Fold(cfg, t).cleanups == Cleanups(t)
    ensures Fold(cfg, t).failed == Failures(cfg, t)
    ensures Fold(cfg, t).created == CreatedId(t)
  {
    if t != [] {
      FoldCounts(cfg, t[..|t| - 1]);
    }
  }

  lemma {:induction false} FoldCalls(cfg: Config, t: Transcript, p: Phase)
    ensures Fold(cfg, t).calls.Of(p) == CallsOf(t, p)
  {
    hide PhaseOf, FailsFatally, FailureOf;
    if t != [] {
      FoldCalls(cfg, t[..|t| - 1], p);
    }
  }

  /** The identifier a sandbox has at the end: from its creation, or the last refresh. */
  function SandboxId(t: Transcript): string {
    if t == [] then ""
    else
      var step := t[|t| - 1];
      if (step.op.Create? || step.op.Metadata?) && step.outcome.Info? then step.outcome.id
      else SandboxId(t[..|t| - 1])
  }

  lemma {:induction false} FoldId(cfg: Config, t: Transcript)
    ensures Fold(cfg, t).id == SandboxId(t)
  {
    if t != [] {
      FoldId(cfg, t[..|t| - 1]);
    }
  }
}
