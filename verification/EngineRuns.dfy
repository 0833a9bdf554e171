/** Whole runs of the engine: what a run leaves behind, stated about the transcript of its calls
    alone, and the exit code of the process. */
module EngineRuns {
  import opened Wrappers
  import opened EngineTranscript
  import opened EnginePlan
  import opened EngineCalls
  import opened EngineReport
  import PhaseEngine

  /** Every run, for every outcome of every call: `t` is its transcript, `spans` its telemetry. */
  method RunOnce(cfg: Config)
    returns (err: Option<Failure>, result: RunResult, phases: seq<Entry>, t: Transcript, spans: seq<Span>)
    ensures Lawful(cfg, t) && AsPlanned(cfg, t)
    ensures err == Verdict(Failures(cfg, t), Fold(cfg, t).upload)
    ensures Reports(result, Failures(cfg, t), Fold(cfg, t).cleanupFailed, Fold(cfg, t).upload)
    ensures Fold(cfg, t).writer ==> phases == ExpectedLog(cfg, Failures(cfg, t), Fold(cfg, t).late)
    ensures Fold(cfg, t).writer ==> Cleanups(t) == if cfg.Managed() && SandboxId(t) != "" then 1 else 0
    ensures !Fold(cfg, t).writer ==> phases == [] && SandboxId(t) == "" && |Failures(cfg, t)| == 1
    ensures spans == if Fold(cfg, t).emitter then Brackets(phases) else []
    // a setup that is recorded as succeeded has run every step of its plan
    ensures forall e :: e in phases && e.phase == Setup && e.status == Succeeded ==>
      Count(t, CheckCommand(Setup)) == Count(t, Secrets(Setup)) == Count(t, Exec(Setup)) == cfg.steps
    ensures forall e :: e in phases && e.phase == Verify && e.status == Succeeded ==> Count(t, Stat) == cfg.expected
    ensures forall e :: e in phases && e.phase == Execute && e.status == Succeeded ==>
      cfg.hasCommand && Count(t, Exec(Execute)) == 1
    // how the sandbox is disposed of
    ensures forall k :: 0 <= k < |t| && IsCleanup(t[k].op) ==> DisposalFits(cfg, t[k].op)
  {
    hide Fold, Lawful, Failures, Cleanups, SandboxId, CallsOf, CreatedId, Verdict, Reports, ExpectedLog, Brackets;
    hide AsPlanned, DisposalFits, MainMade, Progress, Count, PlanOf, Prepended, FailedInCollect;
    var state := new PhaseEngine.RunState(cfg);
    err := state.Run();
    result, phases, t := state.result, state.phases, state.transcript;
    FoldCounts(cfg, t);
    FoldId(cfg, t);
    SummaryIsPlanned(cfg, t, state.left);
    forall e | e in phases && e.status == Succeeded
      ensures e.phase == Setup ==>
        Count(t, CheckCommand(Setup)) == Count(t, Secrets(Setup)) == Count(t, Exec(Setup)) == cfg.steps
      ensures e.phase == Execute ==> cfg.hasCommand && Count(t, Exec(Execute)) == 1
      ensures e.phase == Verify ==> Count(t, Stat) == cfg.expected
    {
      SucceededCounts(cfg, t, e);
    }
    forall k | 0 <= k < |t| && IsCleanup(t[k].op) ensures DisposalFits(cfg, t[k].op) {
      DisposalIsPlanned(cfg, t, k);
    }
    spans := if state.emitter == null then [] else state.emitter.log;
  }

  // ---- failures are never masked ----

  lemma {:induction false} FailuresFrom(cfg: Config, t: Transcript, k: nat)
    requires k < |Failures(cfg, t)|
    ensures exists i :: 0 <= i < |t| && t[i] == Failures(cfg, t)[k] && FailsFatally(cfg, t[i])
  {
    var front := t[..|t| - 1];
    if k < |Failures(cfg, front)| {
      FailuresFrom(cfg, front, k);
      var i :| 0 <= i < |front| && front[i] == Failures(cfg, front)[k] && FailsFatally(cfg, front[i]);
      assert t[i] == front[i];
    } else {
      assert t[|t| - 1] == Failures(cfg, t)[k];
    }
  }

  /** The first of the failures comes before every other fatal failure. */
  lemma {:induction false} FirstFailure(cfg: Config, t: Transcript)
    ensures Failures(cfg, t) == [] <==> forall i :: 0 <= i < |t| ==> !FailsFatally(cfg, t[i])
    ensures Failures(cfg, t) != [] ==>
      exists i :: 0 <= i < |t| && t[i] == Failures(cfg, t)[0] && forall j :: 0 <= j < i ==> !FailsFatally(cfg, t[j])
  {
    if t != [] {
      hide FailsFatally;
      var front, last := t[..|t| - 1], t[|t| - 1];
      FirstFailure(cfg, front);
      if Failures(cfg, front) == [] {
        assert forall j :: 0 <= j < |front| ==> !FailsFatally(cfg, front[j]) && front[j] == t[j];
        if FailsFatally(cfg, last) {
          assert t[|front|] == Failures(cfg, t)[0];
        }
      } else {
        var i :| 0 <= i < |front| && front[i] == Failures(cfg, front)[0]
          && forall j :: 0 <= j < i ==> !FailsFatally(cfg, front[j]);
        assert t[i] == Failures(cfg, t)[0] && forall j :: 0 <= j < i ==> t[j] == front[j];
        FailuresFrom(cfg, front, 0);
        var m :| 0 <= m < |front| && front[m] == Failures(cfg, front)[0] && FailsFatally(cfg, front[m]);
        assert FailsFatally(cfg, t[m]);
      }
    }
  }

  /** At most two calls fail fatally: one of a main phase, then one of collection. */
  ghost predicate TwoFailures(failed: seq<Step>) {
    |failed| <= 2 && (|failed| == 2 ==> FailedInMain(failed) && FailedInCollect(failed))
  }

  lemma {:induction false} TwoFailuresStep(cfg: Config, s: Summary, step: Step)
    requires Allowed(cfg, s, step.op) && TwoFailures(s.failed)
    ensures TwoFailures(Next(cfg, s, step).failed)
  {
    hide PhaseOf;
    FailedOfNext(cfg, s, step);
  }

  lemma {:induction false} AtMostTwoFailures(cfg: Config, t: Transcript)
    requires Lawful(cfg, t)
    ensures TwoFailures(Failures(cfg, t))
  {
    FoldCounts(cfg, t);
    TwoFailuresInFold(cfg, t);
  }

  lemma {:induction false} TwoFailuresInFold(cfg: Config, t: Transcript)
    requires Lawful(cfg, t)
    ensures TwoFailures(Fold(cfg, t).failed)
  {
    if t != [] {
      var front := t[..|t| - 1];
      TwoFailuresInFold(cfg, front);
      hide Next, TwoFailures, Allowed;
      TwoFailuresStep(cfg, Fold(cfg, front), t[|t| - 1]);
    }
  }

  lemma {:induction false} UploadOfNext(cfg: Config, s: Summary, step: Step)
    requires Allowed(cfg, s, step.op)
    ensures Next(cfg, s, step).upload == if IsUpload(step.op) then FailureOf(step) else s.upload
    ensures IsUpload(step.op) ==> s.upload.None?
  {
  }

  lemma {:induction false} UploadErrorMeans(cfg: Config, t: Transcript)
    requires Lawful(cfg, t)
    ensures Fold(cfg, t).upload.Some? <==> exists i :: 0 <= i < |t| && IsUpload(t[i].op) && FailureOf(t[i]).Some?
  {
    hide FailureOf, Next, Allowed, IsUpload, Fits;
    if t != [] {
      var front, last := t[..|t| - 1], t[|t| - 1];
      UploadErrorMeans(cfg, front);
      LawfulAt(cfg, t, |front|);
      assert t[..|front|] == front && t[..|front| + 1] == t;
      UploadOfNext(cfg, Fold(cfg, front), last);
      if exists i :: 0 <= i < |front| && IsUpload(front[i].op) && FailureOf(front[i]).Some? {
        var i :| 0 <= i < |front| && IsUpload(front[i].op) && FailureOf(front[i]).Some?;
        assert IsUpload(t[i].op) && FailureOf(t[i]).Some?;
      } else {
        assert forall i :: 0 <= i < |front| ==> t[i] == front[i];
      }
    }
  }

  /** A run returns no error exactly when no call failed fatally and no upload failed; its status is
      then SUCCEEDED or PARTIAL and its exit code zero.  Otherwise the status is one of failure, or
      PARTIAL when only an upload failed. */
  lemma {:induction false} NoFailureIsMasked(cfg: Config, t: Transcript, result: RunResult)
    requires Lawful(cfg, t)
    requires Reports(result, Failures(cfg, t), Fold(cfg, t).cleanupFailed, Fold(cfg, t).upload)
    ensures var err := Verdict(Failures(cfg, t), Fold(cfg, t).upload);
      && (err.None? <==> forall i :: 0 <= i < |t| ==>
            !FailsFatally(cfg, t[i]) && !(IsUpload(t[i].op) && FailureOf(t[i]).Some?))
      && (err.None? ==> (result.status == Succeeded || result.status == Partial) && result.exit == 0)
      && (err.Some? ==> result.status == Failed || result.status == TimedOut || result.status == Partial)
      && (result.status == Partial ==> Failures(cfg, t) == [])
  {
    FirstFailure(cfg, t);
    UploadErrorMeans(cfg, t);
    if Failures(cfg, t) != [] {
      FailuresFrom(cfg, t, 0);
    }
    hide Fold, Failures, FailureEntry, Lawful;
  }

  // ---- the recorded phases ----

  lemma {:induction false} SuccessesOrdered(cfg: Config, late: bool, n: nat, i: nat, j: nat)
    requires n <= 4 && i < j < |Successes(cfg, late, n)|
    ensures var log := Successes(cfg, late, n); Rank(log[i].phase) < Rank(log[j].phase)
  {
    var log, before := Successes(cfg, late, n), Successes(cfg, late, n - 1);
    SuccessesStep(cfg, late, n - 1);
    if j < |before| {
      SuccessesOrdered(cfg, late, n - 1, i, j);
    } else {
      SuccessesBelow(cfg, late, n - 1, i);
    }
  }

  lemma {:induction false} SuccessesBelow(cfg: Config, late: bool, n: nat, i: nat)
    requires n <= 4 && i < |Successes(cfg, late, n)|
    ensures var e := Successes(cfg, late, n)[i]; Rank(e.phase) < n && e.status == Succeeded && cfg.Enabled(e.phase)
  {
    SuccessesStep(cfg, late, n - 1);
    if i < |Successes(cfg, late, n - 1)| {
      SuccessesBelow(cfg, late, n - 1, i);
    }
  }

  lemma {:induction false} MainLogOrdered(cfg: Config, failed: seq<Step>, late: bool, i: nat, j: nat)
    requires i < j < |MainLog(cfg, failed, late)|
    ensures var log := MainLog(cfg, failed, late);
      Rank(log[i].phase) < Rank(log[j].phase) <= 3 && log[i].status == Succeeded
  {
    var n := if FailedInMain(failed) then Rank(PhaseOf(failed[0].op)) else 4;
    SuccessesBelow(cfg, late, n, i);
    if j < |Successes(cfg, late, n)| {
      SuccessesOrdered(cfg, late, n, i, j);
      SuccessesBelow(cfg, late, n, j);
    }
  }

  /** A main phase that is recorded as succeeded is enabled and has made exactly the calls of its plan;
      collection too, unless it failed after all. */
  lemma {:induction false} SucceededPhasesMadeTheirCalls(cfg: Config, t: Transcript, e: Entry)
    requires AsPlanned(cfg, t) && Fold(cfg, t).writer
    requires e in ExpectedLog(cfg, Failures(cfg, t), Fold(cfg, t).late) && e.status == Succeeded
    requires e.phase == Collect ==> !FailedInCollect(Failures(cfg, t))
    ensures cfg.Enabled(e.phase) && Listed(CallsOf(t, e.phase)) == PlanOf(cfg, CreatedId(t), e.phase)
    ensures e.phase != Collect ==> Rank(e.phase) < ReachedRank(cfg, t)
  {
    hide Fold, Failures, CallsOf, CreatedId, PreparePlan, SetupPlan, ExecutePlan, VerifyPlan, CollectPlan;
    var failed, late := Failures(cfg, t), Fold(cfg, t).late;
    var log := ExpectedLog(cfg, failed, late);
    var k :| 0 <= k < |log| && log[k] == e;
    if k < |Successes(cfg, late, MainRank(failed))| {
      SuccessesBelow(cfg, late, MainRank(failed), k);
    }
    if e.phase != Collect {
      assert PhaseAsPlanned(cfg, t, e.phase);
    }
  }

  lemma {:induction false} CountedIsCalled(t: Transcript, op: Op) returns (k: nat)
    requires Count(t, op) > 0
    ensures k < |t| && t[k].op == op
  {
    k := |t| - 1;
    if t[k].op != op {
      k := CountedIsCalled(t[..k], op);
    }
  }

  /** A run does not get past a phase in which a call has failed. */
  lemma {:induction false} FatalStops(cfg: Config, t: Transcript, k: nat)
    requires Lawful(cfg, t) && k < |t| && FailsFatally(cfg, t[k]) && PhaseOf(t[k].op) != Collect
    ensures ReachedRank(cfg, t) <= Rank(PhaseOf(t[k].op))
  {
    hide Fold, Failures, Lawful, FailsFatally, PhaseOf;
    FirstFailure(cfg, t);
    var i :| 0 <= i < |t| && t[i] == Failures(cfg, t)[0] && forall j :: 0 <= j < i ==> !FailsFatally(cfg, t[j]);
    if i < k {
      PhasesInOrder(cfg, t, i, k);
    }
  }

  /** Without a command execution does not succeed. */
  lemma {:induction false} ExecutesACommand(cfg: Config, t: Transcript)
    requires Lawful(cfg, t) && AsPlanned(cfg, t) && Fold(cfg, t).writer && cfg.execute && ReachedRank(cfg, t) > 2
    ensures cfg.hasCommand
  {
    hide Fold, Failures, AsPlanned, Count, Lawful;
    if !cfg.hasCommand {
      ExecuteCounts(cfg, t, RequireCommand);
      var k := CountedIsCalled(t, RequireCommand);
      LawfulAt(cfg, t, k);
      FatalStops(cfg, t, k);
    }
  }

  lemma {:induction false} SetupRunsEveryStep(cfg: Config, t: Transcript)
    requires AsPlanned(cfg, t) && cfg.setup && ReachedRank(cfg, t) > 1
    ensures Count(t, CheckCommand(Setup)) == Count(t, Secrets(Setup)) == Count(t, Exec(Setup)) == cfg.steps
  {
    hide AsPlanned, ReachedRank, Count;
    SetupCounts(cfg, t, CheckCommand(Setup));
    SetupCounts(cfg, t, Secrets(Setup));
    SetupCounts(cfg, t, Exec(Setup));
  }

  lemma {:induction false} SucceededCounts(cfg: Config, t: Transcript, e: Entry)
    requires Lawful(cfg, t) && AsPlanned(cfg, t) && Fold(cfg, t).writer
    requires e in ExpectedLog(cfg, Failures(cfg, t), Fold(cfg, t).late) && e.status == Succeeded
    ensures e.phase == Setup ==>
      Count(t, CheckCommand(Setup)) == Count(t, Secrets(Setup)) == Count(t, Exec(Setup)) == cfg.steps
    ensures e.phase == Execute ==> cfg.hasCommand && Count(t, Exec(Execute)) == 1
    ensures e.phase == Verify ==> Count(t, Stat) == cfg.expected
  {
    hide Lawful, Fold, Failures, ExpectedLog, AsPlanned, Count, ReachedRank, PlanOf, FailedInCollect, Listed;
    if e.phase != Collect {
      SucceededPhasesMadeTheirCalls(cfg, t, e);
    }
    match e.phase
    case Setup => SetupRunsEveryStep(cfg, t);
    case Execute =>
      ExecuteCounts(cfg, t, Exec(Execute));
      ExecutesACommand(cfg, t);
    case Verify => VerifyCounts(cfg, t, Stat);
    case _ =>
  }

  /** Phases are recorded in the declared order, each main phase at most once; after the first that
      did not succeed only collection is recorded; and collection is recorded twice exactly when it
      failed after its success had been recorded. */
  lemma {:induction false} PhasesRecordedInOrder(cfg: Config, failed: seq<Step>, late: bool, i: nat, j: nat)
    requires i < j < |ExpectedLog(cfg, failed, late)|
    ensures var log := ExpectedLog(cfg, failed, late);
      && Rank(log[i].phase) <= Rank(log[j].phase)
      && (log[i].phase == log[j].phase ==> log[i].phase == Collect && log[i].status == Succeeded && log[j].status != Succeeded)
      && (log[i].status != Succeeded ==> log[j].phase == Collect)
      && (log[i].phase == log[j].phase ==> FailedInCollect(failed) && failed[|failed| - 1].op != Write(Replay))
  {
    var main := MainLog(cfg, failed, late);
    if j < |main| {
      MainLogOrdered(cfg, failed, late, i, j);
    } else if i < |main| {
      var n := if FailedInMain(failed) then Rank(PhaseOf(failed[0].op)) else 4;
      if i < |Successes(cfg, late, n)| {
        SuccessesBelow(cfg, late, n, i);
      }
    }
  }

  lemma {:induction false} CollectRecordedTwice(cfg: Config, failed: seq<Step>, late: bool)
    ensures var log := ExpectedLog(cfg, failed, late);
      && log != [] && log[|log| - 1].phase == Collect
      && (|log| > 1 && log[|log| - 2].phase == Collect
          <==> FailedInCollect(failed) && failed[|failed| - 1].op != Write(Replay))
  {
    MainLogEnd(cfg, failed, late);
    hide MainLog;
  }

  lemma {:induction false} BracketsStep(log: seq<Entry>) returns (n: nat)
    requires log != []
    ensures 0 < n <= |log|
    ensures var last := log[|log| - 1];
      Brackets(log) == Brackets(log[..|log| - n]) + [Started(last.phase), Ended(last.phase, last.status != Succeeded)]
  {
    n := if |log| > 1 && log[|log| - 2].phase == log[|log| - 1].phase then 2 else 1;
  }

  /** Spans come in pairs: each one started is ended before the next is started. */
  lemma {:induction false} SpansAlternate(log: seq<Entry>, k: nat)
    requires 2 * k < |Brackets(log)|
    ensures var spans := Brackets(log);
      && |spans| % 2 == 0 && spans[2 * k].Started? && spans[2 * k + 1].Ended?
      && spans[2 * k].phase == spans[2 * k + 1].phase
    decreases |log|
  {
    assert Brackets([]) == [];
    hide Brackets;
    var n := BracketsStep(log);
    var before := Brackets(log[..|log| - n]);
    if before != [] {
      SpansAlternate(log[..|log| - n], 0);
    }
    if 2 * k < |before| {
      SpansAlternate(log[..|log| - n], k);
    }
  }

  // ---- the sandbox ----

  /** Call `i` has created a sandbox, and no later call reports another identifier. */
  ghost predicate CreatedForGood(t: Transcript, i: nat) {
    && i < |t| && t[i].op.Create? && t[i].outcome.Info?
    && forall j :: i < j < |t| && (t[j].op.Create? || t[j].op.Metadata?) && t[j].outcome.Info? ==>
         t[j].outcome.id == t[i].outcome.id
  }

  /** Unless a refresh changes it, the identifier at the end is the one `Create` returned. */
  lemma {:induction false} CreatedIdKept(t: Transcript, i: nat)
    requires CreatedForGood(t, i)
    ensures SandboxId(t) == t[i].outcome.id
  {
    if i < |t| - 1 {
      var front := t[..|t| - 1];
      assert forall j :: 0 <= j < |front| ==> front[j] == t[j];
      CreatedIdKept(front, i);
    }
  }

  /** Keeping, pausing or deleting a sandbox comes after its creation, and names it. */
  lemma {:induction false} CleanupNamesCreated(cfg: Config, t: Transcript, i: nat, k: nat)
    requires Lawful(cfg, t) && CreatedForGood(t, i) && k < |t| && IsCleanup(t[k].op)
    ensures i < k && t[k].op.id == t[i].outcome.id != ""
  {
    hide Lawful, Fold, SandboxId, Next;
    if k < i {
      NothingAfterCleanup(cfg, t, k, i);
    }
    LawfulAt(cfg, t, k);
    FoldId(cfg, t[..k]);
    assert forall j :: 0 <= j < k ==> t[..k][j] == t[j];
    CreatedIdKept(t[..k], i);
  }

  lemma {:induction false} CleanupExists(t: Transcript) returns (k: nat)
    requires Cleanups(t) > 0
    ensures k < |t| && IsCleanup(t[k].op)
  {
    k := |t| - 1;
    if !IsCleanup(t[k].op) {
      k := CleanupExists(t[..k]);
    }
  }

  /** With the number of cleanups that every run has: a sandbox created for good, with an identifier,
      is disposed of by one call, which names it, and no other sandbox ever is. */
  lemma {:induction false} DisposedOfOnce(cfg: Config, t: Transcript, i: nat) returns (k: nat)
    requires Lawful(cfg, t) && CreatedForGood(t, i) && t[i].outcome.id != ""
    requires Cleanups(t) == if cfg.Managed() && SandboxId(t) != "" then 1 else 0
    ensures i < k < |t| && IsCleanup(t[k].op) && t[k].op.id == t[i].outcome.id
    ensures forall j :: 0 <= j < |t| && IsCleanup(t[j].op) ==> j == k
  {
    hide Lawful, Fold, SandboxId, Next, Cleanups;
    LawfulAt(cfg, t, i);
    CreatedIdKept(t, i);
    k := CleanupExists(t);
    CleanupNamesCreated(cfg, t, i, k);
    forall j | 0 <= j < |t| && IsCleanup(t[j].op) ensures j == k {
      if j < k {
        NothingAfterCleanup(cfg, t, j, k);
      } else if k < j {
        NothingAfterCleanup(cfg, t, k, j);
      }
    }
  }

  /** With a backend that can synchronise, a command runs only after the workspace has been uploaded
      into the sandbox. */
  lemma {:induction false} ExecAfterUpload(cfg: Config, t: Transcript, j: nat) returns (i: nat)
    requires Lawful(cfg, t) && AsPlanned(cfg, t) && Fold(cfg, t).writer && j < |t| && t[j].op.Exec?
    requires cfg.Managed() && cfg.syncer
    ensures i < j && t[i].op == SyncIn(cfg.answers.sandboxId) && FailureOf(t[i]).None?
  {
    hide Fold, Failures, AsPlanned, Count, Lawful, FailureOf, ReachedRank, PlanOf, Occurs, FailsFatally;
    LawfulAt(cfg, t, j);
    CalledIsCounted(t, j);
    PlannedCounts(cfg, t, t[j].op);
    PrepareCounts(cfg, t, SyncIn(cfg.answers.sandboxId));
    i := CountedIsCalled(t, SyncIn(cfg.answers.sandboxId));
    if j < i {
      PhasesInOrder(cfg, t, j, i);
    }
    UploadIsFatal(cfg, t[i]);
    if FailsFatally(cfg, t[i]) {
      FatalStops(cfg, t, i);
    }
  }

  lemma {:induction false} UploadIsFatal(cfg: Config, step: Step)
    ensures step.op.SyncIn? ==> (FailsFatally(cfg, step) <==> FailureOf(step).Some?)
  {
  }

  // ---- exit codes ----

  function ExitCodeForResult(result: RunResult): int {
    if result.exit != 0 then result.exit
    else
      match result.status
      case TimedOut => 124
      case Aborted => 130
      case Failed => 1
      case Partial => 1
      case _ => 0
  }

  /** RunCommand.Run: the code of a loaded command, given what the engine returned. */
  function CommandCode(result: RunResult, err: Option<Failure>): int {
    if err.Some? then ExitCodeForResult(result) else result.exit
  }

  /** The code the process exits with. */
  function ProcessCode(code: int, err: Option<Failure>): int {
    if err.Some? then if code != 0 then code else 1 else code
  }

  /** The process exits with zero exactly when the run returned no error, a partial success with
      failed cleanup included. */
  lemma {:induction false} ExitZeroIffNoError(cfg: Config, t: Transcript, result: RunResult)
    requires Lawful(cfg, t)
    requires Reports(result, Failures(cfg, t), Fold(cfg, t).cleanupFailed, Fold(cfg, t).upload)
    ensures var err := Verdict(Failures(cfg, t), Fold(cfg, t).upload);
      ProcessCode(CommandCode(result, err), err) == 0 <==> err.None?
  {
    NoFailureIsMasked(cfg, t, result);
    hide Fold, Failures, Verdict, Lawful, Reports;
  }

  /** The code a failed call leaves: a command's own code, or 124 for the main command out of time;
      any other failure is a plain one. */
  function FailureCode(step: Step): int {
    if step.outcome.Ran? && step.outcome.exit != 0 then step.outcome.exit else if IsTimeout(step) then 124 else 1
  }

  /** The final code of every run, from the calls that failed: that of the last fatal failure, else
      one for a failed upload, else zero. */
  lemma {:induction false} FinalCode(cfg: Config, t: Transcript, result: RunResult)
    requires Lawful(cfg, t)
    requires Reports(result, Failures(cfg, t), Fold(cfg, t).cleanupFailed, Fold(cfg, t).upload)
    ensures var failed, upload := Failures(cfg, t), Fold(cfg, t).upload; var err := Verdict(failed, upload);
      ProcessCode(CommandCode(result, err), err)
      == if failed != [] then FailureCode(failed[|failed| - 1]) else if upload.Some? then 1 else 0
  {
    hide Fold, Lawful, Failures, PhaseOf, CodeFor;
    var failed := Failures(cfg, t);
    if failed != [] {
      FailuresFrom(cfg, t, 0);
      FailuresFrom(cfg, t, |failed| - 1);
    }
  }

  /** The exit code of a failed command, of setup, of verification or the main one, is that of the
      process, unless collection fails too: its failure then takes the place of the command's, and
      the process exits with one. */
  lemma {:induction false} CommandCodeSurvives(cfg: Config, t: Transcript, result: RunResult)
    requires Lawful(cfg, t)
    requires Reports(result, Failures(cfg, t), Fold(cfg, t).cleanupFailed, Fold(cfg, t).upload)
    requires Failures(cfg, t) != [] && Failures(cfg, t)[0].op.Exec?
    requires Failures(cfg, t)[0].outcome.Ran? && Failures(cfg, t)[0].outcome.exit != 0
    ensures var failed := Failures(cfg, t); var err := Verdict(failed, Fold(cfg, t).upload);
      ProcessCode(CommandCode(result, err), err) == failed[0].outcome.exit
      <==> !FailedInCollect(failed) || failed[0].outcome.exit == 1
  {
    AtMostTwoFailures(cfg, t);
    FailuresFrom(cfg, t, 0);
    var failed := Failures(cfg, t);
    if FailedInCollect(failed) {
      CollectFailureHasNoCode(cfg, t, |failed| - 1);
    }
    hide Fold, Failures, Lawful, PhaseOf;
  }

  lemma {:induction false} CollectFailureHasNoCode(cfg: Config, t: Transcript, k: nat)
    requires Lawful(cfg, t) && k < |Failures(cfg, t)| && PhaseOf(Failures(cfg, t)[k].op) == Collect
    ensures var e := FailureEntry(Failures(cfg, t)[k]); e.status == Failed && e.exit == 0
  {
    FailuresFrom(cfg, t, k);
    var i :| 0 <= i < |t| && t[i] == Failures(cfg, t)[k] && FailsFatally(cfg, t[i]);
    LawfulAt(cfg, t, i);
    hide Fold, Lawful, Failures;
  }
}
