/** The phase engine: one run, from preparation to collection, as it updates its state and calls
    its environment.  Every outcome of a call is nondeterministic, so what `Run` ensures holds for
    every run.  Each phase method either leaves the run `Ready` for the next phase, or has recorded
    and reported the one failure. */
module PhaseEngine {
  import opened Wrappers
  import opened EngineTranscript
  import opened EnginePlan
  import opened EngineReport

  // ---- the emitter: only its bookkeeping of spans ----

  class Emitter {
    var phaseSpans: set<Phase>
    var runSpan: bool
    var log: seq<Span>

    constructor ()
      ensures phaseSpans == {} && !runSpan && log == []
    {
      phaseSpans, runSpan, log := {}, false, [];
    }

    method StartRun()
      modifies this`runSpan
      ensures runSpan
    {
      runSpan := true;
    }

    method StartPhase(p: Phase)
      modifies this`phaseSpans, this`log
      ensures phaseSpans == old(phaseSpans) + {p} && log == old(log) + [Started(p)]
    {
      phaseSpans := phaseSpans + {p};
      log := log + [Started(p)];
    }

    /** Events carry no state of their own here. */
    method EmitEvent(name: string) {
    }

    method EndPhase(p: Phase, status: Status)
      modifies this`phaseSpans, this`log
      ensures phaseSpans == old(phaseSpans) - {p}
      ensures log == if p in old(phaseSpans) then old(log) + [Ended(p, status != Succeeded)] else old(log)
    {
      if p in phaseSpans {
        log := log + [Ended(p, status != Succeeded)];
        phaseSpans := phaseSpans - {p};
      }
    }

    /** A run that did not succeed marks the run span, which must exist. */
    method EndRun(status: Status)
      requires status != Succeeded ==> runSpan
      modifies this`runSpan
      ensures !runSpan
    {
      runSpan := false;
    }
  }

  // ---- the engine ----

  class RunState {
    const cfg: Config
    var writer: bool
    var emitter: Emitter?
    var backend: bool
    var executor: bool
    var sandboxId: string
    var pauseResume: bool
    var phases: seq<Entry>
    var result: RunResult
    var transcript: Transcript
    ghost var sum: Summary
    ghost var left: Script         // the calls still planned for the phase

    constructor (cfg: Config)
      ensures this.cfg == cfg && Unprepared() && !backend && !executor && transcript == [] && left == PreparePlan(cfg)
    {
      this.cfg := cfg;
      writer, emitter, backend, executor := false, null, false, false;
      sandboxId, pauseResume, phases := "", false, [];
      result := RunResult(Created, Prepare, NoCode, "", 0, false);
      transcript, sum, left := [], FRESH, PreparePlan(cfg);
    }

    ghost predicate Recorded()
      reads this`transcript, this`sum
    {
      sum == Fold(cfg, transcript) && Lawful(cfg, transcript)
    }

    /** The fields agree with the transcript; a backend implies an emitter, an emitter a writer. */
    ghost predicate Coherent()
      reads this
    {
      && Recorded()
      && writer == sum.writer && (emitter != null <==> sum.emitter) && backend == sum.built && sandboxId == sum.id
      && (sum.built ==> sum.emitter) && (sum.emitter ==> sum.writer) && sum.rank <= 4
      && sum.creates <= 1 && (sum.creates == 1 ==> cfg.Managed() && sum.built)
      && (sum.id != "" ==> sum.creates == 1) && (sum.started ==> sum.creates == 1)
      && (sum.rank < 4 ==> sum.id == sum.created) && (sum.created != "" ==> sum.creates == 1)
      && (sum.creates == 1 ==> pauseResume == cfg.answers.pauseResume)
    }

    /** The calls made in phase `p` and those still planned are its plan. */
    ghost predicate OnPlan(p: Phase)
      reads this`sum, this`left
    {
      PlanOf(cfg, sum.created, p) == Prepended(sum.calls.Of(p), left)
    }

    ghost predicate Due(op: Op)
      reads this`left
    {
      left.Then? && left.op == op
    }

    ghost predicate Spans(spans: set<Phase>, log: seq<Span>)
      reads this`emitter, emitter
    {
      emitter != null ==> emitter.phaseSpans == spans && emitter.runSpan && emitter.log == log
    }

    ghost predicate Idle()
      reads this, emitter
    {
      Coherent() && Spans({}, Brackets(phases))
    }

    ghost predicate Within(p: Phase)
      reads this, emitter
    {
      && Coherent() && Spans({p}, Brackets(phases) + [Started(p)])
      && (phases != [] ==> phases[|phases| - 1].phase != p)
    }

    // ---- calls ----

    method Record(op: Op, outcome: Outcome)
      requires Recorded() && Due(op) && Allowed(cfg, sum, op) && Fits(cfg, Step(op, outcome))
      modifies this`transcript, this`sum, this`left
      ensures Recorded() && left == old(left).rest
      ensures transcript == old(transcript) + [Step(op, outcome)]
      ensures sum == Next(cfg, old(sum), Step(op, outcome))
      ensures old(OnPlan(PhaseOf(op))) ==> OnPlan(PhaseOf(op))
    {
      hide Next, Allowed, PlanOf, Prepended;
      var step := Step(op, outcome);
      assert (transcript + [step])[..|transcript|] == transcript;
      PlanKept(cfg, sum, step, left.rest);
      transcript := transcript + [step];
      sum := Next(cfg, sum, step);
      left := left.rest;
    }

    /** A call whose error is arbitrary, unless the answers settle it. */
    method Try(op: Op) returns (err: Option<Failure>)
      requires Recorded() && Due(op) && Allowed(cfg, sum, op)
      requires !op.Exec? && !op.Create? && !op.Metadata? && !op.RequireCommand?
      modifies this`transcript, this`sum, this`left
      ensures Recorded() && left == old(left).rest
      ensures sum == Next(cfg, old(sum), Step(op, Done(err)))
      ensures op.Upload? ==> (err.None? <==> cfg.answers.uploads)
      ensures old(OnPlan(PhaseOf(op))) ==> OnPlan(PhaseOf(op))
    {
      hide Next, Allowed, OnPlan, PhaseOf;
      var failure: Failure := *;
      err := *;
      if op.Upload? {
        err := if cfg.answers.uploads then None else Some(failure);
      }
      Record(op, Done(err));
    }

    /** Create and SandboxMetadata return the sandbox or an error. */
    method Lookup(op: Op) returns (id: string, err: Option<Failure>)
      requires Recorded() && Due(op) && Allowed(cfg, sum, op) && (op.Create? || op.Metadata?)
      modifies this`transcript, this`sum, this`left
      ensures Recorded() && left == old(left).rest
      ensures sum == Next(cfg, old(sum), Step(op, if err.Some? then Done(err) else Info(id)))
      ensures op.Create? ==> id == cfg.answers.sandboxId
      ensures op.Metadata? ==> cfg.answers.refreshedId == if err.Some? then None else Some(id)
      ensures old(OnPlan(PhaseOf(op))) ==> OnPlan(PhaseOf(op))
    {
      hide Next, Allowed, OnPlan, PhaseOf;
      var failure: Failure := *;
      id, err := cfg.answers.sandboxId, *;
      if op.Metadata? {
        match cfg.answers.refreshedId {
          case Some(refreshed) =>
            id, err := refreshed, None;
          case None =>
            err := Some(failure);
        }
      }
      Record(op, if err.Some? then Done(err) else Info(id));
    }

    method RunCommand(p: Phase) returns (exit: int, timedOut: bool, err: Option<Failure>)
      requires Recorded() && Due(Exec(p)) && Allowed(cfg, sum, Exec(p))
      modifies this`transcript, this`sum, this`left
      ensures Recorded() && left == old(left).rest
      ensures sum == Next(cfg, old(sum), Step(Exec(p), Ran(exit, timedOut, err)))
      ensures old(OnPlan(p)) ==> OnPlan(p)
    {
      hide Next, Allowed, OnPlan;
      exit, timedOut, err := *, *, *;
      Record(Exec(p), Ran(exit, timedOut, err));
    }

    method StartPhase(p: Phase)
      requires Idle() && (phases != [] ==> phases[|phases| - 1].phase != p)
      modifies emitter
      ensures Within(p)
    {
      hide Brackets, Fold, Lawful;
      if emitter != null {
        emitter.StartPhase(p);
      }
    }

    method EndPhase(p: Phase, status: Status)
      modifies emitter
      ensures emitter != null ==>
        && emitter.runSpan == old(emitter.runSpan) && emitter.phaseSpans == old(emitter.phaseSpans) - {p}
        && emitter.log == if p in old(emitter.phaseSpans) then old(emitter.log) + [Ended(p, status != Succeeded)]
                          else old(emitter.log)
    {
      if emitter != null {
        emitter.EndPhase(p, status);
      }
    }

    // ---- how far a run has come ----

    /** No failure yet, and nothing of collection has happened. */
    ghost predicate Clean()
      reads this
    {
      sum.failed == [] && sum.cleanups == 0 && !sum.cleanupFailed && sum.upload.None? && sum.writer
    }

    ghost predicate Unreported()
      reads this
    {
      result.code == NoCode && result.exit == 0 && !result.timedOut
    }

    ghost predicate Prepared()
      reads this
    {
      && sum.built && sum.emitter && (cfg.Managed() ==> sum.started && sum.created == cfg.answers.sandboxId)
      && result.status == Succeeded
    }

    /** Everything before the phase of rank `n` went well. */
    ghost predicate Reached(n: nat)
      reads this
    {
      && Clean() && Prepared() && Unreported() && sum.rank < n
      && Progress(cfg, n, sum.calls) && sum.calls.Of(PhaseAt(n)) == [] && sum.calls.collect == []
      && (n < 4 ==> executor == ((n > 1 && cfg.setup) || (n > 2 && cfg.execute)))
      && phases == Successes(cfg, sum.late, n)
    }

    /** Phase `p` is going on, everything before went well. */
    ghost predicate InProgress(p: Phase)
      reads this
    {
      && Clean() && Unreported() && (p != Prepare ==> Prepared()) && p != Collect && cfg.Enabled(p)
      && sum.rank <= Rank(p) && Progress(cfg, Rank(p), sum.calls) && sum.calls.collect == [] && OnPlan(p)
      && phases == Successes(cfg, sum.late, Rank(p))
    }

    /** The one failure so far, of which `entry` is the record, has not been recorded yet. */
    ghost predicate Breaking(entry: Entry)
      reads this
    {
      && |sum.failed| == 1 && FailureEntry(sum.failed[0]) == entry && entry.err.Some? && entry.phase != Collect
      && PhaseOf(sum.failed[0].op) == entry.phase && FailureOf(sum.failed[0]) == entry.err
      && sum.rank <= 3 && sum.cleanups == 0 && !sum.cleanupFailed && sum.upload.None? && sum.writer
      && Progress(cfg, Rank(entry.phase), sum.calls) && sum.calls.collect == [] && OnPlan(entry.phase)
      && phases == Successes(cfg, sum.late, Rank(entry.phase))
    }

    /** The one failure so far, in phase `p`, is recorded and reported. */
    ghost predicate Broken(p: Phase, err: Option<Failure>)
      reads this
    {
      && |sum.failed| == 1 && PhaseOf(sum.failed[0].op) == p && FailureOf(sum.failed[0]) == err && p != Collect
      && sum.rank <= 3 && sum.cleanups == 0 && !sum.cleanupFailed && sum.upload.None? && sum.writer && err.Some?
      && Progress(cfg, Rank(p), sum.calls) && sum.calls.collect == [] && OnPlan(p)
      && Failing(Successes(cfg, sum.late, Rank(p)), FailureEntry(sum.failed[0]))
    }

    ghost predicate Ready(n: nat)
      reads this, emitter
    {
      Idle() && Reached(n)
    }

    ghost predicate Going(p: Phase)
      reads this, emitter
    {
      Within(p) && InProgress(p)
    }

    /** Phase `p` goes on, or it has failed with `r`. */
    ghost predicate Checked(p: Phase, r: Option<Failure>)
      reads this, emitter
    {
      if r.None? then Going(p) else Idle() && Broken(p, r)
    }

    // ---- failing ----

    method FailWithoutArtifacts(code: Code, err: Failure) returns (r: Option<Failure>)
      modifies this`result
      ensures r == Some(err)
      ensures result == old(result).(status := Failed, phase := Prepare, code := CodeFor(code, err), message := err.text)
    {
      result := result.(status := Failed, phase := Prepare, code := CodeFor(code, err), message := err.text);
      return Some(err);
    }

    method FailPhase(p: Phase, code: Code, err: Failure) returns (r: Option<Failure>)
      modifies this`phases, this`result, emitter
      ensures r == Some(err) && Failing(old(phases), Entry(p, Failed, CodeFor(code, err), Some(err), 0, false))
      ensures emitter != null ==>
        && emitter.runSpan == old(emitter.runSpan) && emitter.phaseSpans == old(emitter.phaseSpans) - {p}
        && emitter.log == if p in old(emitter.phaseSpans) then old(emitter.log) + [Ended(p, true)] else old(emitter.log)
      ensures old(Within(p) && Breaking(Entry(p, Failed, CodeFor(code, err), Some(err), 0, false))) ==>
        Idle() && Broken(p, r)
    {
      hide Within, Breaking, Idle, Broken;
      r := FailPhaseWithStatus(p, code, err, Failed, 0, false);
    }

    method FailPhaseWithStatus(p: Phase, code: Code, err: Failure, status: Status, exit: int, timedOut: bool)
      returns (r: Option<Failure>)
      requires status != Succeeded
      modifies this`phases, this`result, emitter
      ensures r == Some(err) && Failing(old(phases), Entry(p, status, CodeFor(code, err), Some(err), exit, timedOut))
      ensures emitter != null ==>
        && emitter.runSpan == old(emitter.runSpan) && emitter.phaseSpans == old(emitter.phaseSpans) - {p}
        && emitter.log == if p in old(emitter.phaseSpans) then old(emitter.log) + [Ended(p, true)] else old(emitter.log)
      ensures old(Within(p) && Breaking(Entry(p, status, CodeFor(code, err), Some(err), exit, timedOut))) ==>
        Idle() && Broken(p, r)
    {
      hide Progress, OnPlan, Fold, Lawful, FailureEntry, FailureOf, Successes, PhaseOf;
      var code1 := CodeFor(code, err);
      ghost var before := phases;
      BracketsSnoc(before, Entry(p, status, code1, Some(err), exit, timedOut));
      hide Brackets;
      phases := phases + [Entry(p, status, code1, Some(err), exit, timedOut)];
      result := RunResult(status, p, code1, err.text, exit, timedOut);
      if emitter != null {
        emitter.EmitEvent("phase.error");
        emitter.EndPhase(p, status);
      }
      r := Some(err);
    }

    /** A call whose failure, not recorded yet, breaks the phase it is made in. */
    method TryPlain(p: Phase, op: Op, code: Code) returns (err: Option<Failure>)
      requires Going(p) && Due(op)
      requires FailsWith(cfg, p, op, code) && Usable(sum, op)
      modifies this`transcript, this`sum, this`left
      ensures Within(p) && left == old(left).rest
      ensures if err.None? then InProgress(p) && Noted(old(sum), sum, op)
        else Breaking(Entry(p, Failed, CodeFor(code, err.value), err, 0, false))
    {
      hide Progress, OnPlan, Called, Fold, Lawful, Brackets, Successes, DefaultCode, PhaseOf, Next, Allowed, FailureEntry, Spans;
      PlainAllowed(cfg, p, sum, op, code);
      err := Try(op);
      PlainStep(cfg, p, old(sum), op, code, err);
      ProgressKept(cfg, Rank(p), old(sum.calls), op);
    }

    /** A call whose failure fails the phase it is made in, with `code` unless the error has its own. */
    method CheckOrFail(p: Phase, op: Op, code: Code) returns (r: Option<Failure>)
      requires Going(p) && Due(op)
      requires FailsWith(cfg, p, op, code) && Usable(sum, op)
      modifies this`transcript, this`sum, this`left, this`phases, this`result, emitter
      ensures Checked(p, r) && left == old(left).rest
      ensures r.None? ==> Noted(old(sum), sum, op)
    {
      hide Within, Breaking, Idle, Broken, InProgress, FailsWith, Usable, Noted, CodeFor;
      var err := TryPlain(p, op, code);
      if err.Some? {
        r := FailPhase(p, code, err.value);
      } else {
        r := None;
      }
    }

    /** A failed phase is recorded and reported alike. */
    ghost predicate Failing(before: seq<Entry>, entry: Entry)
      reads this`phases, this`result
    {
      && phases == before + [entry] && entry.err.Some?
      && result == RunResult(entry.status, entry.phase, entry.code, entry.err.value.text, entry.exit, entry.timedOut)
    }

    // ---- the phases ----

    /** Recording the success of a phase and ending its span. */
    method FinishPhase(p: Phase, timedOut: bool)
      requires Going(p) && cfg.Enabled(p) && left == End
      requires p == Prepare ==> sum.built
      requires p == Prepare && cfg.Managed() ==> sum.started && sum.created == cfg.answers.sandboxId
      requires p != Verify ==> executor == (p == Setup || p == Execute)
      requires p == Execute ==> timedOut == sum.late
      requires p != Execute ==> !timedOut
      modifies this`phases, this`result, emitter
      ensures Ready(Rank(p) + 1)
    {
      hide Progress, PlanOf, Prepended, Fold, Lawful, Brackets, Successes;
      BracketsSnoc(phases, SuccessEntry(p, sum.late));
      SuccessesStep(cfg, sum.late, Rank(p));
      ProgressMade(cfg, sum.created, p, sum.calls);
      phases := phases + [Entry(p, Succeeded, NoCode, None, 0, timedOut)];
      if p != Setup {
        result := result.(status := Succeeded, phase := p, exit := 0);
      }
      EndPhase(p, Succeeded);
    }

    /** The first lines of a phase after preparation: a disabled one is skipped, an enabled one
        starts its span. */
    method BeginPhase(p: Phase) returns (enabled: bool)
      requires Ready(Rank(p)) && p != Prepare && p != Collect
      modifies this`left, emitter
      ensures enabled == cfg.Enabled(p)
      ensures p == Execute ==> executor == cfg.setup
      ensures p == Verify ==> executor == (cfg.setup || cfg.execute)
      ensures if enabled then Going(p) && left == PlanOf(cfg, sum.created, p) else Ready(Rank(p) + 1)
    {
      hide Progress, PlanOf, Fold, Lawful, Brackets, Successes;
      SuccessesStep(cfg, sum.late, Rank(p));
      left := PlanOf(cfg, sum.created, p);
      NothingPlanned(cfg, sum.created, p, sum.calls);
      enabled := cfg.Enabled(p);
      if enabled {
        SuccessesEnd(cfg, sum.late, Rank(p));
        StartPhase(p);
      }
    }

    method RunPhaseCommand(p: Phase) returns (exit: int, timedOut: bool, err: Option<Failure>)
      requires Going(p) && p != Prepare && (p == Execute ==> cfg.hasCommand) && (p == Verify ==> cfg.hasSmoke)
      requires sum.cleared == Some(p) && Due(Exec(p))
      modifies this`transcript, this`sum, this`left
      ensures err.None? && exit == 0 ==> Going(p) && (p == Execute ==> timedOut == sum.late)
      ensures left == old(left).rest
      ensures err.Some? || exit != 0 ==> Within(p) && Breaking(CommandEntry(p, exit, timedOut, err))
    {
      ghost var late := sum.late;
      hide Progress, OnPlan, Called, Fold, Lawful, Brackets, Successes, FailureEntry, CommandEntry;
      hide FailsFatally, FailureOf, Next, Spans;
      exit, timedOut, err := RunCommand(p);
      CommandFailure(cfg, p, exit, timedOut, err);
      CommandStep(cfg, old(sum), p, exit, timedOut, err);
      ProgressKept(cfg, Rank(p), old(sum.calls), Exec(p));
      SuccessesBeforeExecute(cfg, late, sum.late, Rank(p));
    }

    /** The executor is chosen once; setup chooses it anew. */
    method ChooseExecutor(p: Phase, code: Code) returns (r: Option<Failure>)
      requires Going(p) && code == DefaultCode(NewExecutor(p)) && Due(NewExecutor(p))
      modifies this`transcript, this`sum, this`left, this`phases, this`result, this`executor, emitter
      ensures Checked(p, r)
      ensures r.None? ==> executor && Noted(old(sum), sum, NewExecutor(p))
      ensures left == old(left).rest
    {
      hide Progress, OnPlan, Fold, Lawful, Brackets, Successes, FailureEntry, DefaultCode;
      r := CheckOrFail(p, NewExecutor(p), code);
      if r.None? {
        executor := true;
      }
    }

    method EnsureExecutor(p: Phase, code: Code, ghost next: Script) returns (r: Option<Failure>)
      requires Going(p) && code == DefaultCode(NewExecutor(p)) && (p == Setup || p == Execute || p == Verify)
      requires left == if executor then next else Then(NewExecutor(p), next)
      modifies this`transcript, this`sum, this`left, this`phases, this`result, this`executor, emitter
      ensures Checked(p, r)
      ensures r.None? ==> executor && left == next && sum.cleared == old(sum.cleared)
    {
      hide Going, Idle, Broken, DefaultCode;
      r := None;
      if !executor {
        r := ChooseExecutor(p, code);
      }
    }

    method RunSetup() returns (r: Option<Failure>)
      requires Ready(1)
      modifies this`transcript, this`sum, this`left, this`phases, this`result, this`executor, emitter
      ensures if r.None? then Ready(2) else Checked(Setup, r)
    {
      hide Ready, Going, StepsPlan;
      var enabled := BeginPhase(Setup);
      if !enabled {
        return None;
      }
      r := PlanSetup();
      if r.Some? {
        return;
      }
      r := WriteSetupFiles();
      if r.Some? {
        return;
      }
      r := RunSetupSteps();
      if r.Some? {
        return;
      }
      FinishPhase(Setup, false);
    }

    method PlanSetup() returns (r: Option<Failure>)
      requires Going(Setup) && left == SetupPlan(cfg)
      modifies this`transcript, this`sum, this`left, this`phases, this`result, emitter
      ensures Checked(Setup, r)
      ensures r.None? ==> left == SetupPlan(cfg).rest.rest
    {
      hide Going, Idle, Broken, StepsPlan;
      r := CheckOrFail(Setup, Network(Setup), PolicyNetDeny);
      if r.Some? {
        return;
      }
      r := CheckOrFail(Setup, Plan, SetupFailed);
    }

    method WriteSetupFiles() returns (r: Option<Failure>)
      requires Going(Setup) && left == SetupPlan(cfg).rest.rest
      modifies this`transcript, this`sum, this`left, this`phases, this`result, this`executor, emitter
      ensures Checked(Setup, r)
      ensures r.None? ==> executor && left == StepsPlan(cfg.steps)
    {
      hide Going, Idle, Broken, StepsPlan;
      r := CheckOrFail(Setup, Write(SetupPlanFile), SetupFailed);
      if r.Some? {
        return;
      }
      r := WriteEnvironment();
    }

    method WriteEnvironment() returns (r: Option<Failure>)
      requires Going(Setup) && left == SetupPlan(cfg).rest.rest.rest
      modifies this`transcript, this`sum, this`left, this`phases, this`result, this`executor, emitter
      ensures Checked(Setup, r)
      ensures r.None? ==> executor && left == StepsPlan(cfg.steps)
    {
      hide Going, Idle, Broken, StepsPlan;
      r := CheckOrFail(Setup, Write(EnvironmentFile), SetupFailed);
      if r.Some? {
        return;
      }
      r := ChooseExecutor(Setup, SetupFailed);
    }

    /** The steps of the setup plan, as many as the planner returned. */
    method RunSetupSteps() returns (r: Option<Failure>)
      requires Going(Setup) && left == StepsPlan(cfg.steps)
      modifies this`transcript, this`sum, this`left, this`phases, this`result, emitter
      ensures Checked(Setup, r)
      ensures r.None? ==> left == End
    {
      hide Going, Idle, Broken;
      r := None;
      for i := 0 to cfg.steps
        invariant Going(Setup) && r == None
        invariant left == StepsPlan(cfg.steps - i)
      {
        r := RunSetupStep(cfg.steps - i);
        if r.Some? {
          return;
        }
      }
    }

    /** One step; `n` are left. */
    method RunSetupStep(ghost n: nat) returns (r: Option<Failure>)
      requires Going(Setup) && n > 0 && left == StepsPlan(n)
      modifies this`transcript, this`sum, this`left, this`phases, this`result, emitter
      ensures Checked(Setup, r)
      ensures r.None? ==> left == StepsPlan(n - 1)
    {
      hide Going, Idle, Broken, Within, Breaking;
      r := ClearSetupStep(n);
      if r.Some? {
        return;
      }
      var exit, timedOut, execErr := RunPhaseCommand(Setup);
      if execErr.Some? || exit != 0 {
        r := FailPhaseWithStatus(Setup, SetupFailed, CommandError(exit, execErr), Failed, exit, timedOut);
      }
    }

    method ClearSetupStep(ghost n: nat) returns (r: Option<Failure>)
      requires Going(Setup) && n > 0 && left == StepsPlan(n)
      modifies this`transcript, this`sum, this`left, this`phases, this`result, emitter
      ensures Checked(Setup, r)
      ensures r.None? ==> left == Then(Exec(Setup), StepsPlan(n - 1)) && sum.cleared == Some(Setup)
    {
      hide Going, Idle, Broken;
      r := CheckOrFail(Setup, CheckCommand(Setup), PolicyToolDeny);
      if r.Some? {
        return;
      }
      r := CheckOrFail(Setup, Secrets(Setup), PolicySecretDeny);
    }

    method RunExecute() returns (r: Option<Failure>)
      requires Ready(2)
      modifies this`transcript, this`sum, this`left, this`phases, this`result, this`executor, emitter
      ensures if r.None? then Ready(3) else Checked(Execute, r)
    {
      hide Ready, Going, Within, Breaking, Idle, Broken, CommandPlan;
      var enabled := BeginPhase(Execute);
      if !enabled {
        return None;
      }
      r := PlanExecute();
      if r.Some? {
        return;
      }
      r := CheckOrFail(Execute, ResolveAdapter, ExecuteFailed);
      if r.Some? {
        return;
      }
      r := ResolveCommand();
      if r.Some? {
        return;
      }
      r := RunPlannedCommand();
    }

    method RunPlannedCommand() returns (r: Option<Failure>)
      requires Going(Execute) && cfg.execute && cfg.hasCommand && sum.cleared == Some(Execute)
      requires executor && left == Then(Exec(Execute), End)
      modifies this`transcript, this`sum, this`left, this`phases, this`result, emitter
      ensures if r.None? then Ready(3) else Checked(Execute, r)
    {
      hide Ready, Going, Within, Breaking, Idle, Broken;
      var exit, timedOut, execErr := RunPhaseCommand(Execute);
      if execErr.Some? || exit != 0 {
        var code, status := ExecuteFailed, Failed;
        if (execErr.Some? && execErr.value.deadline) || timedOut {
          code, status := Timeout, TimedOut;
        }
        r := FailPhaseWithStatus(Execute, code, CommandError(exit, execErr), status, exit, timedOut);
        return;
      }
      r := None;
      FinishPhase(Execute, timedOut);
    }

    method PlanExecute() returns (r: Option<Failure>)
      requires Going(Execute) && left == ExecutePlan(cfg)
      modifies this`transcript, this`sum, this`left, this`phases, this`result, emitter
      ensures Checked(Execute, r)
      ensures r.None? ==> cfg.hasCommand && left == Then(ResolveAdapter, CommandPlan(cfg))
    {
      hide Going, Idle, Broken, CommandPlan;
      if !cfg.hasCommand {
        r := RejectMissingCommand();
        return;
      }
      r := CheckExecutePolicy();
    }

    method CheckExecutePolicy() returns (r: Option<Failure>)
      requires Going(Execute) && cfg.hasCommand && left == ExecutePlan(cfg)
      modifies this`transcript, this`sum, this`left, this`phases, this`result, emitter
      ensures Checked(Execute, r)
      ensures r.None? ==> left == Then(ResolveAdapter, CommandPlan(cfg))
    {
      hide Going, Idle, Broken, CommandPlan;
      r := CheckOrFail(Execute, Network(Execute), PolicyNetDeny);
      if r.Some? {
        return;
      }
      r := CheckOrFail(Execute, Secrets(Execute), PolicySecretDeny);
    }

    method RejectMissingCommand() returns (r: Option<Failure>)
      requires Going(Execute) && !cfg.hasCommand && Due(RequireCommand)
      modifies this`transcript, this`sum, this`left, this`phases, this`result, emitter
      ensures Checked(Execute, r) && r.Some?
    {
      hide Progress, OnPlan, Fold, Lawful, Brackets, Successes;
      var err := Failure("no command provided", None, false);
      Record(RequireCommand, Done(Some(err)));
      ProgressKept(cfg, 2, old(sum.calls), RequireCommand);
      assert Breaking(Entry(Execute, Failed, ConfigInvalid, Some(err), 0, false));
      hide Within, Breaking, Idle, Broken;
      r := FailPhase(Execute, ConfigInvalid, err);
    }

    method ResolveCommand() returns (r: Option<Failure>)
      requires Going(Execute) && left == CommandPlan(cfg) && executor == cfg.setup
      modifies this`transcript, this`sum, this`left, this`phases, this`result, this`executor, emitter
      ensures Checked(Execute, r)
      ensures r.None? ==> executor && sum.cleared == Some(Execute) && left == Then(Exec(Execute), End)
    {
      hide Going, Idle, Broken;
      r := CheckOrFail(Execute, RewriteCommand, ExecuteFailed);
      if r.Some? {
        return;
      }
      r := AdmitCommand();
    }

    method AdmitCommand() returns (r: Option<Failure>)
      requires Going(Execute) && left == CommandPlan(cfg).rest && executor == cfg.setup
      modifies this`transcript, this`sum, this`left, this`phases, this`result, this`executor, emitter
      ensures Checked(Execute, r)
      ensures r.None? ==> executor && sum.cleared == Some(Execute) && left == Then(Exec(Execute), End)
    {
      hide Going, Idle, Broken;
      r := CheckOrFail(Execute, CheckCommand(Execute), PolicyToolDeny);
      if r.Some? {
        return;
      }
      r := EnsureExecutor(Execute, ExecuteFailed, Then(Exec(Execute), End));
    }

    method RunVerify() returns (r: Option<Failure>)
      requires Ready(3)
      modifies this`transcript, this`sum, this`left, this`phases, this`result, this`executor, emitter
      ensures if r.None? then Ready(4) else Checked(Verify, r)
    {
      hide Ready, Going, Idle, Broken, SmokePlan, ArtifactsPlan;
      var enabled := BeginPhase(Verify);
      if !enabled {
        return None;
      }
      r := CheckVerifyNetwork();
      if r.Some? {
        return;
      }
      if cfg.hasSmoke {
        r := RunSmokeCommand();
        if r.Some? {
          return;
        }
      }
      r := CheckArtifacts();
      if r.Some? {
        return;
      }
      FinishPhase(Verify, false);
    }

    /** Without a configured profile an error of the network policy is ignored. */
    method CheckVerifyNetwork() returns (r: Option<Failure>)
      requires Going(Verify) && Due(Network(Verify))
      modifies this`transcript, this`sum, this`left, this`phases, this`result, emitter
      ensures Checked(Verify, r)
      ensures left == old(left).rest && (r.None? ==> SameSandbox(old(sum), sum))
    {
      hide Going, Idle, Broken;
      if cfg.verifyProfile {
        r := CheckOrFail(Verify, Network(Verify), PolicyNetDeny);
      } else {
        IgnoreVerifyNetwork();
        r := None;
      }
    }

    method IgnoreVerifyNetwork()
      requires Going(Verify) && !cfg.verifyProfile && Due(Network(Verify))
      modifies this`transcript, this`sum, this`left
      ensures Going(Verify) && left == old(left).rest && SameSandbox(old(sum), sum)
    {
      hide Progress, OnPlan, Called, Fold, Lawful, Brackets, Successes, Spans, FailureOf;
      var err := Try(Network(Verify));
      ProgressKept(cfg, 3, old(sum.calls), Network(Verify));
    }

    method RunSmokeCommand() returns (r: Option<Failure>)
      requires Going(Verify) && cfg.hasSmoke && left == SmokePlan(cfg) && executor == (cfg.setup || cfg.execute)
      modifies this`transcript, this`sum, this`left, this`phases, this`result, this`executor, emitter
      ensures Checked(Verify, r)
      ensures r.None? ==> left == ArtifactsPlan(cfg)
    {
      hide Going, Idle, Broken, Within, Breaking, SmokePlan, ArtifactsPlan;
      r := PrepareSmokeCommand();
      if r.Some? {
        return;
      }
      var exit, timedOut, execErr := RunPhaseCommand(Verify);
      if execErr.Some? || exit != 0 {
        r := FailPhaseWithStatus(Verify, VerifyFailed, CommandError(exit, execErr), Failed, exit, timedOut);
      }
    }

    method PrepareSmokeCommand() returns (r: Option<Failure>)
      requires Going(Verify) && left == SmokePlan(cfg) && executor == (cfg.setup || cfg.execute)
      modifies this`transcript, this`sum, this`left, this`phases, this`result, this`executor, emitter
      ensures Checked(Verify, r)
      ensures r.None? ==> sum.cleared == Some(Verify) && left == Then(Exec(Verify), ArtifactsPlan(cfg))
    {
      hide Going, Idle, Broken, ArtifactsPlan;
      r := ClearSmokeCommand();
      if r.Some? {
        return;
      }
      r := CheckOrFail(Verify, Secrets(Verify), PolicySecretDeny);
    }

    method ClearSmokeCommand() returns (r: Option<Failure>)
      requires Going(Verify) && left == SmokePlan(cfg) && executor == (cfg.setup || cfg.execute)
      modifies this`transcript, this`sum, this`left, this`phases, this`result, this`executor, emitter
      ensures Checked(Verify, r)
      ensures r.None? ==> sum.cleared == Some(Verify) && left == SmokeRunPlan(cfg)
    {
      hide Going, Idle, Broken, SmokeRunPlan;
      r := CheckOrFail(Verify, CheckCommand(Verify), PolicyToolDeny);
      if r.Some? {
        return;
      }
      r := EnsureExecutor(Verify, VerifyFailed, SmokeRunPlan(cfg));
    }

    method CheckArtifacts() returns (r: Option<Failure>)
      requires Going(Verify) && left == ArtifactsPlan(cfg)
      modifies this`transcript, this`sum, this`left, this`phases, this`result, emitter
      ensures Checked(Verify, r)
      ensures r.None? ==> left == End
    {
      hide Going, Idle, Broken, DownloadsPlan, ArtifactsPlan;
      r := DownloadExpectedArtifacts();
      if r.Some? {
        return;
      }
      for i := 0 to cfg.expected
        invariant Going(Verify) && r == None
        invariant left == StatsPlan(cfg.expected - i)
      {
        r := CheckOrFail(Verify, Stat, VerifyFailed);
        if r.Some? {
          return;
        }
      }
    }

    method DownloadExpectedArtifacts() returns (r: Option<Failure>)
      requires Going(Verify) && left == ArtifactsPlan(cfg)
      modifies this`transcript, this`sum, this`left, this`phases, this`result, emitter
      ensures Checked(Verify, r)
      ensures r.None? ==> left == StatsPlan(cfg.expected)
    {
      hide Progress, OnPlan, Fold, Lawful, Brackets, Successes;
      r := None;
      if !cfg.kind.OpenSandbox? || !cfg.downloader || sandboxId == "" {
        return;
      }
      ghost var s := sum;
      for i := 0 to cfg.expected
        invariant Going(Verify) && r == None && SameSandbox(s, sum) && left == DownloadsPlan(cfg, cfg.expected - i)
      {
        r := CheckOrFail(Verify, Download(sandboxId), SandboxDownloadFailed);
        if r.Some? {
          return;
        }
      }
    }

    // ---- preparation ----

    /** Before the artifact writer exists. */
    ghost predicate Unprepared()
      reads this
    {
      && Coherent() && Unreported() && !sum.writer && sum.failed == [] && sum.rank == 0 && sum.cleanups == 0
      && !sum.cleanupFailed && sum.upload.None? && phases == [] && emitter == null && !executor
      && Progress(cfg, 0, sum.calls) && sum.calls.collect == [] && OnPlan(Prepare)
    }

    /** Preparation failed with `r` before there was a writer: reported, but recorded nowhere. */
    ghost predicate Unrecorded(r: Option<Failure>)
      reads this
    {
      && Coherent() && !sum.writer && |sum.failed| == 1 && FailureOf(sum.failed[0]) == r && r.Some?
      && phases == [] && emitter == null && sum.creates == 0 && sum.cleanups == 0
      && Progress(cfg, 0, sum.calls) && sum.calls.collect == [] && OnPlan(Prepare)
      && result.phase == Prepare && result.exit == 0
      && Reports(result, sum.failed, sum.cleanupFailed, sum.upload)
    }

    ghost predicate Configured(r: Option<Failure>)
      reads this
    {
      if r.None? then Unprepared() else Unrecorded(r)
    }

    method ConfigureOrFail(op: Op, code: Code) returns (r: Option<Failure>)
      requires Unprepared() && Due(op) && FailsWith(cfg, Prepare, op, code) && !UsesBackend(op)
      requires !op.Write? && !op.Secrets?
      modifies this`transcript, this`sum, this`left, this`result
      ensures Configured(r) && left == old(left).rest
    {
      hide Progress, OnPlan, Called, Fold, Lawful, DefaultCode, PhaseOf;
      var err := Try(op);
      ProgressKept(cfg, 0, old(sum.calls), op);
      if err.Some? {
        r := FailWithoutArtifacts(code, err.value);
      } else {
        r := None;
      }
    }

    method Configure() returns (r: Option<Failure>)
      requires Unprepared() && left == PreparePlan(cfg)
      modifies this`transcript, this`sum, this`left, this`result
      ensures Configured(r)
      ensures r.None? ==> left == Then(NewWriter, TelemetryPlan(cfg))
    {
      hide Unprepared, Unrecorded, TargetPlan;
      r := ConfigurePaths();
      if r.Some? {
        return;
      }
      r := ConfigureOrFail(Compatibility, UnsupportedExecutionCombo);
      if r.Some? {
        return;
      }
      r := ConfigureTarget();
    }

    method ConfigurePaths() returns (r: Option<Failure>)
      requires Unprepared() && left == PreparePlan(cfg)
      modifies this`transcript, this`sum, this`left, this`result
      ensures Configured(r)
      ensures r.None? ==> left == Then(Compatibility, TargetPlan(cfg))
    {
      hide Unprepared, Unrecorded, TargetPlan;
      r := ConfigureOrFail(AbsWorkspace, ConfigInvalid);
      if r.Some? {
        return;
      }
      r := ConfigureOrFail(AbsArtifactDir, ConfigInvalid);
    }

    method ConfigureTarget() returns (r: Option<Failure>)
      requires Unprepared() && left == TargetPlan(cfg)
      modifies this`transcript, this`sum, this`left, this`result
      ensures Configured(r)
      ensures r.None? ==> left == Then(NewWriter, TelemetryPlan(cfg))
    {
      hide Unprepared, Unrecorded, TelemetryPlan;
      r := ConfigureOrFail(Probe, CapabilityProbeFailed);
      if r.Some? {
        return;
      }
      r := ConfigureArtifacts();
    }

    method ConfigureArtifacts() returns (r: Option<Failure>)
      requires Unprepared() && left == TargetPlan(cfg).rest
      modifies this`transcript, this`sum, this`left, this`result
      ensures Configured(r)
      ensures r.None? ==> left == Then(NewWriter, TelemetryPlan(cfg))
    {
      hide Unprepared, Unrecorded, TelemetryPlan;
      r := ConfigureOrFail(Features, ConfigInvalid);
      if r.Some? {
        return;
      }
      r := ConfigureOrFail(MkArtifactDir, ConfigInvalid);
    }

    method OpenWriter() returns (r: Option<Failure>)
      requires Unprepared() && Due(NewWriter)
      modifies this`transcript, this`sum, this`left, this`result, this`writer
      ensures if r.None? then Going(Prepare) && emitter == null else Unrecorded(r)
      ensures left == old(left).rest
    {
      hide Progress, OnPlan, Called, Fold, Lawful;
      var err := Try(NewWriter);
      ProgressKept(cfg, 0, old(sum.calls), NewWriter);
      if err.Some? {
        r := FailWithoutArtifacts(ConfigInvalid, err.value);
        return;
      }
      writer := true;
      r := None;
    }

    method OpenTelemetry() returns (r: Option<Failure>)
      requires Going(Prepare) && emitter == null && Due(NewEmitter)
      modifies this`transcript, this`sum, this`left, this`phases, this`result, this`emitter
      ensures Checked(Prepare, r)
      ensures r.None? ==> emitter != null && fresh(emitter) && left == old(left).rest
      ensures r.Some? ==> emitter == null
    {
      hide Progress, OnPlan, Called, Fold, Lawful;
      var err := Try(NewEmitter);
      ProgressKept(cfg, 0, old(sum.calls), NewEmitter);
      if err.Some? {
        assert Breaking(Entry(Prepare, Failed, CodeFor(CollectorUnavailable, err.value), err, 0, false));
        hide Within, Breaking, Idle, Broken;
        r := FailPhase(Prepare, CollectorUnavailable, err.value);
        return;
      }
      emitter := new Emitter();
      emitter.StartRun();
      emitter.StartPhase(Prepare);
      assert Brackets(phases) == [];
      r := None;
    }

    method OpenBackend() returns (r: Option<Failure>)
      requires Going(Prepare) && emitter != null && !backend && Due(NewBackend)
      modifies this`transcript, this`sum, this`left, this`phases, this`result, this`backend, emitter
      ensures Checked(Prepare, r)
      ensures r.None? ==> sum.built && sum.creates == 0 && left == old(left).rest
    {
      hide Progress, OnPlan, Called, Fold, Lawful;
      var err := Try(NewBackend);
      ProgressKept(cfg, 0, old(sum.calls), NewBackend);
      if err.Some? {
        assert Breaking(Entry(Prepare, Failed, CodeFor(ConfigInvalid, err.value), err, 0, false));
        hide Within, Breaking, Idle, Broken;
        r := FailPhase(Prepare, ConfigInvalid, err.value);
        return;
      }
      backend := true;
      r := None;
    }

    method InspectBackend() returns (r: Option<Failure>)
      requires Going(Prepare) && sum.built && sum.creates == 0 && emitter != null && left == BackendPlan(cfg).rest
      modifies this`transcript, this`sum, this`left, this`phases, this`result, this`pauseResume, emitter
      ensures Checked(Prepare, r)
      ensures r.None? ==> sum.built && sum.creates == 0 && left == RequirementsPlan(cfg).rest
      ensures r.None? ==> pauseResume == cfg.answers.pauseResume
    {
      hide Going, Idle, Broken, SandboxPlan, FilesPlan, SupportPlan;
      r := CheckCapabilities();
      if r.Some? {
        return;
      }
      r := CheckOrFail(Prepare, RuntimeInfo, SandboxUnsupportedCapability);
      if r.Some? {
        return;
      }
      emitter.EmitEvent("runtime.profile.selected");
      r := CheckSupport();
    }

    method CheckSupport() returns (r: Option<Failure>)
      requires Going(Prepare) && emitter != null && left == SupportPlan(cfg)
      modifies this`transcript, this`sum, this`left, this`phases, this`result, emitter
      ensures Checked(Prepare, r)
      ensures r.None? ==> SameSandbox(old(sum), sum) && left == RequirementsPlan(cfg).rest
    {
      hide Going, Idle, Broken, SandboxPlan, FilesPlan;
      if cfg.kata {
        emitter.EmitEvent("kata.preflight.start");
        r := CheckOrFail(Prepare, KataSupport, ProviderRuntimeUnsupported);
        if r.Some? {
          return;
        }
        emitter.EmitEvent("kata.preflight.end");
      }
      r := CheckOrFail(Prepare, RequiredCapabilities, SandboxUnsupportedCapability);
    }

    method CheckCapabilities() returns (r: Option<Failure>)
      requires Going(Prepare) && sum.built && Due(Capabilities)
      modifies this`transcript, this`sum, this`left, this`phases, this`result, this`pauseResume, emitter
      ensures Checked(Prepare, r)
      ensures r.None? ==> Noted(old(sum), sum, Capabilities) && pauseResume == cfg.answers.pauseResume
      ensures left == old(left).rest
    {
      hide Progress, OnPlan, Fold, Lawful, Brackets, Successes, FailureEntry;
      r := CheckOrFail(Prepare, Capabilities, SandboxUnsupportedCapability);
      if r.None? {
        pauseResume := cfg.answers.pauseResume;
      }
    }

    method TryCreate() returns (id: string, err: Option<Failure>)
      requires Going(Prepare) && sum.built && sum.creates == 0 && cfg.Managed() && Due(Create)
      requires pauseResume == cfg.answers.pauseResume
      modifies this`transcript, this`sum, this`left, this`sandboxId
      ensures Within(Prepare) && left == old(left).rest
      ensures if err.None? then InProgress(Prepare) && sum.built && sum.creates == 1 && !sum.started
          && sandboxId == id == cfg.answers.sandboxId == sum.created
        else Breaking(Entry(Prepare, Failed, CodeFor(SandboxCreateFailed, err.value), err, 0, false))
    {
      hide Progress, OnPlan, Called, Fold, Lawful, Brackets, Successes;
      id, err := Lookup(Create);
      ProgressKept(cfg, 0, old(sum.calls), Create);
      if err.None? {
        sandboxId := id;
      }
    }

    method CreateSandbox() returns (r: Option<Failure>)
      requires Going(Prepare) && sum.built && sum.creates == 0 && cfg.Managed() && emitter != null && Due(Create)
      requires pauseResume == cfg.answers.pauseResume
      modifies this`transcript, this`sum, this`left, this`phases, this`result, this`sandboxId, emitter
      ensures Checked(Prepare, r) && left == old(left).rest
      ensures r.None? ==> sum.built && sum.creates == 1 && !sum.started
      ensures r.None? ==> sandboxId == cfg.answers.sandboxId == sum.created
    {
      hide Within, Breaking, Idle, Broken, InProgress, CodeFor;
      emitter.EmitEvent("sandbox.create.start");
      var id, err := TryCreate();
      if err.Some? {
        r := FailPhase(Prepare, SandboxCreateFailed, err.value);
        return;
      }
      emitter.EmitEvent("sandbox.create.end");
      r := None;
    }

    method TryStart() returns (err: Option<Failure>)
      requires Going(Prepare) && sum.built && sum.creates == 1 && !sum.started && Due(Start(sandboxId))
      modifies this`transcript, this`sum, this`left
      ensures Within(Prepare) && sandboxId == sum.id && sum.built && sum.created == old(sum.created)
      ensures left == old(left).rest
      ensures if err.None? then InProgress(Prepare) && sum.started
        else Breaking(Entry(Prepare, Failed, CodeFor(SandboxStartFailed, err.value), err, 0, false))
    {
      hide Progress, OnPlan, Called, Fold, Lawful, Brackets, Successes;
      err := Try(Start(sandboxId));
      ProgressKept(cfg, 0, old(sum.calls), Start(sandboxId));
    }

    method StartSandbox() returns (r: Option<Failure>)
      requires Going(Prepare) && sum.built && sum.creates == 1 && !sum.started && emitter != null && Due(Start(sandboxId))
      modifies this`transcript, this`sum, this`left, this`phases, this`result, emitter
      ensures Checked(Prepare, r)
      ensures r.None? ==> sum.started && sandboxId == sum.id && sum.built && sum.created == old(sum.created)
      ensures left == old(left).rest
    {
      hide Within, Breaking, Idle, Broken, InProgress, CodeFor;
      var err := TryStart();
      if err.Some? {
        r := FailPhase(Prepare, SandboxStartFailed, err.value);
        return;
      }
      emitter.EmitEvent("sandbox.start");
      r := None;
    }

    /** Errors of the container's metadata are only noted. */
    method FillSandbox() returns (r: Option<Failure>)
      requires Going(Prepare) && sum.started && sandboxId == sum.id && sum.built && emitter != null
      requires sandboxId == cfg.answers.sandboxId && left == FillPlan(cfg)
      modifies this`transcript, this`sum, this`left, this`phases, this`result, emitter
      ensures Checked(Prepare, r)
      ensures r.None? ==> sum.built && sum.started && sum.created == old(sum.created) && left == FilesPlan(cfg)
    {
      hide Progress, OnPlan, Called, Fold, Lawful, Brackets, Successes, FailureEntry, DescribePlan;
      r := None;
      if cfg.syncer {
        emitter.EmitEvent("workspace.sync_in");
        r := CheckOrFail(Prepare, SyncIn(sandboxId), SandboxUploadFailed);
        if r.Some? {
          return;
        }
      }
      DescribeSandbox();
    }

    method DescribeSandbox()
      requires Going(Prepare) && sum.started && sum.built && sandboxId == cfg.answers.sandboxId && left == DescribePlan(cfg)
      modifies this`transcript, this`sum, this`left
      ensures Going(Prepare) && sum.built && sum.started && sum.created == old(sum.created) && left == FilesPlan(cfg)
    {
      hide Progress, OnPlan, Called, Fold, Lawful, Brackets, Successes, Spans, FailureOf, FilesPlan;
      if cfg.devProvider {
        var err := Try(DevMetadata(Prepare, sandboxId));
        ProgressKept(cfg, 0, old(sum.calls), DevMetadata(Prepare, sandboxId));
      }
    }

    method PrepareSandbox() returns (r: Option<Failure>)
      requires Going(Prepare) && sum.built && sum.creates == 0 && cfg.Managed() && emitter != null
      requires left == SandboxPlan(cfg) && pauseResume == cfg.answers.pauseResume
      modifies this`transcript, this`sum, this`left, this`phases, this`result, this`sandboxId, emitter
      ensures Checked(Prepare, r)
      ensures r.None? ==> sum.built && sum.started && sum.created == cfg.answers.sandboxId && left == FilesPlan(cfg)
    {
      hide Going, Idle, Broken, FillPlan, FilesPlan;
      r := CreateSandbox();
      if r.Some? {
        return;
      }
      r := StartSandbox();
      if r.Some? {
        return;
      }
      r := FillSandbox();
    }

    method WriteBackendFiles() returns (r: Option<Failure>)
      requires Going(Prepare) && left == FilesPlan(cfg)
      modifies this`transcript, this`sum, this`left, this`phases, this`result, emitter
      ensures Checked(Prepare, r)
      ensures r.None? ==> SameSandbox(old(sum), sum) && left == SandboxFilePlan(cfg)
    {
      hide Going, Idle, Broken, SandboxFilePlan;
      r := CheckOrFail(Prepare, Write(Context), ConfigInvalid);
      if r.Some? {
        return;
      }
      r := CheckOrFail(Prepare, Write(Provider), ConfigInvalid);
      if r.Some? {
        return;
      }
      r := WriteRuntimeFiles();
    }

    method WriteRuntimeFiles() returns (r: Option<Failure>)
      requires Going(Prepare) && left == FilesPlan(cfg).rest.rest
      modifies this`transcript, this`sum, this`left, this`phases, this`result, emitter
      ensures Checked(Prepare, r)
      ensures r.None? ==> SameSandbox(old(sum), sum) && left == SandboxFilePlan(cfg)
    {
      hide Going, Idle, Broken, SandboxFilePlan;
      r := CheckOrFail(Prepare, Write(BackendProfile), ConfigInvalid);
      if r.Some? {
        return;
      }
      r := CheckOrFail(Prepare, Write(Runtime), ConfigInvalid);
    }

    /** Written only for a sandbox, a container or a machine that has a name. */
    method WriteSandboxFiles() returns (r: Option<Failure>)
      requires Going(Prepare) && left == SandboxFilePlan(cfg) && (sandboxId != "" <==> Named(cfg))
      modifies this`transcript, this`sum, this`left, this`phases, this`result, emitter
      ensures Checked(Prepare, r)
      ensures r.None? ==> SameSandbox(old(sum), sum) && left == End
    {
      hide Going, Idle, Broken, Named, ContainerFilePlan;
      r := None;
      if sandboxId != "" {
        r := CheckOrFail(Prepare, Write(SandboxFile), ConfigInvalid);
        if r.Some? {
          return;
        }
      }
      r := WriteTargetFiles();
    }

    method WriteTargetFiles() returns (r: Option<Failure>)
      requires Going(Prepare) && left == ContainerFilePlan(cfg) && (sandboxId != "" <==> Named(cfg))
      modifies this`transcript, this`sum, this`left, this`phases, this`result, emitter
      ensures Checked(Prepare, r)
      ensures r.None? ==> SameSandbox(old(sum), sum) && left == End
    {
      hide Going, Idle, Broken, Named;
      r := None;
      if cfg.kind.AppleContainer? && sandboxId != "" {
        r := CheckOrFail(Prepare, Write(ContainerFile), ConfigInvalid);
        if r.Some? {
          return;
        }
      }
      if cfg.kind.OrbStackMachine? && (sandboxId != "" || cfg.machineName) {
        r := CheckOrFail(Prepare, Write(MachineFile), ConfigInvalid);
      }
    }

    /** With the span of preparation open. */
    method PrepareBackend() returns (r: Option<Failure>)
      requires Going(Prepare) && emitter != null && !backend && !executor && left == BackendPlan(cfg)
      modifies this`transcript, this`sum, this`left, this`phases, this`result, this`backend, this`pauseResume, this`sandboxId, emitter
      ensures if r.None? then Ready(1) else Checked(Prepare, r)
    {
      hide Going, Idle, Broken, Ready, SupportPlan, SandboxPlan, FilesPlan, SandboxFilePlan;
      r := OpenBackend();
      if r.Some? {
        return;
      }
      r := InspectBackend();
      if r.Some? {
        return;
      }
      if cfg.Managed() {
        r := PrepareSandbox();
        if r.Some? {
          return;
        }
      }
      r := WriteBackendFiles();
      if r.Some? {
        return;
      }
      SandboxIsNamed();
      r := WriteSandboxFiles();
      if r.Some? {
        return;
      }
      FinishPhase(Prepare, false);
    }

    lemma {:induction false} SandboxIsNamed()
      requires Going(Prepare) && (cfg.Managed() ==> sum.created == cfg.answers.sandboxId)
      ensures sandboxId != "" <==> Named(cfg)
    {
      hide Progress, OnPlan, Fold, Lawful, Brackets, Successes;
    }

    method CheckPaths() returns (r: Option<Failure>)
      requires Going(Prepare) && left == TelemetryPlan(cfg)
      modifies this`transcript, this`sum, this`left, this`phases, this`result, emitter
      ensures Checked(Prepare, r)
      ensures r.None? ==> left == TelemetryPlan(cfg).rest.rest
    {
      hide Going, Idle, Broken, BackendPlan;
      r := CheckOrFail(Prepare, PathRead, PolicyFSDeny);
      if r.Some? {
        return;
      }
      r := CheckOrFail(Prepare, PathWrite, PolicyFSDeny);
    }

    method PrepareTelemetry() returns (r: Option<Failure>)
      requires Going(Prepare) && emitter == null && left == TelemetryPlan(cfg)
      modifies this`transcript, this`sum, this`left, this`phases, this`result, this`emitter
      ensures Checked(Prepare, r)
      ensures if r.None? then emitter != null && fresh(emitter) else emitter == null
      ensures r.None? ==> left == BackendPlan(cfg)
    {
      hide Going, Idle, Broken, BackendPlan;
      r := CheckPaths();
      if r.Some? {
        return;
      }
      r := CheckOrFail(Prepare, Bootstrap, CollectorUnavailable);
      if r.Some? {
        return;
      }
      r := OpenTelemetry();
    }

    method OpenRun() returns (r: Option<Failure>)
      requires Unprepared() && left == PreparePlan(cfg)
      modifies this`transcript, this`sum, this`left, this`result, this`writer
      ensures if r.None? then Going(Prepare) && emitter == null && left == TelemetryPlan(cfg) else Unrecorded(r)
    {
      hide Going, Unprepared, Unrecorded, TargetPlan, TelemetryPlan;
      r := Configure();
      if r.Some? {
        return;
      }
      r := OpenWriter();
    }

    method RunPrepare() returns (r: Option<Failure>)
      requires Unprepared() && !backend && left == PreparePlan(cfg)
      modifies this
      ensures if r.None? then Ready(1) else if writer then Checked(Prepare, r) else Unrecorded(r)
      ensures emitter == null || fresh(emitter)
    {
      hide Going, Idle, Broken, Ready, Unrecorded, TargetPlan, TelemetryPlan, BackendPlan;
      r := OpenRun();
      if r.Some? {
        WriterAbsent(r);
        return;
      }
      r := PrepareTelemetry();
      if r.Some? {
        WriterPresent(Prepare, r);
        return;
      }
      r := PrepareBackend();
      if r.Some? {
        WriterPresent(Prepare, r);
      }
    }

    lemma {:induction false} WriterAbsent(r: Option<Failure>)
      requires Unrecorded(r)
      ensures !writer
    {
    }

    lemma {:induction false} WriterPresent(p: Phase, r: Option<Failure>)
      requires Checked(p, r)
      ensures writer
    {
    }

    // ---- collection ----

    /** The main phases are over, well or not, and recorded and reported as they should be. */
    ghost predicate MainOver()
      reads this
    {
      && Coherent() && sum.writer && |sum.failed| <= 1 && (sum.failed != [] ==> FailedInMain(sum.failed))
      && MainMade(cfg, sum.failed, sum.calls)
      && phases == MainLog(cfg, sum.failed, sum.late) && sum.upload.None?
      && Reports(result, sum.failed, sum.cleanupFailed, sum.upload)
    }

    ghost predicate Collecting()
      reads this, emitter
    {
      MainOver() && OnPlan(Collect) && Spans({Collect}, Brackets(phases) + [Started(Collect)])
    }

    /** A sandbox that is still known has been disposed of, once. */
    ghost predicate Disposed()
      reads this
    {
      sum.cleanups == if cfg.Managed() && sum.id != "" then 1 else 0
    }

    /** The success of collection is recorded, and `upload` is the error of an upload reported so
        far; what follows can still take it back. */
    ghost predicate CollectedBut(upload: Option<Failure>)
      reads this, emitter
    {
      && Coherent() && Disposed() && sum.writer && |sum.failed| <= 1 && (sum.failed != [] ==> FailedInMain(sum.failed))
      && MainMade(cfg, sum.failed, sum.calls) && OnPlan(Collect)
      && phases == MainLog(cfg, sum.failed, sum.late) + [SuccessEntry(Collect, false)]
      && result.phase == Collect && Reports(result, sum.failed, sum.cleanupFailed, upload)
      && Spans({Collect}, Brackets(MainLog(cfg, sum.failed, sum.late)) + [Started(Collect)])
    }

    ghost predicate Collected()
      reads this, emitter
    {
      CollectedBut(sum.upload)
    }

    /** The end of a run that has a writer. */
    ghost predicate Over()
      reads this, emitter
    {
      && Coherent() && Disposed() && sum.writer && phases == ExpectedLog(cfg, sum.failed, sum.late)
      && MainMade(cfg, sum.failed, sum.calls) && OnPlan(Collect) && (!FailedInCollect(sum.failed) ==> left == End)
      && result.phase == Collect && Reports(result, sum.failed, sum.cleanupFailed, sum.upload)
      && Spans({}, Brackets(phases))
    }

    /** Collection goes on, or it has failed with `r`. */
    ghost predicate CollectChecked(r: Option<Failure>)
      reads this, emitter
    {
      if r.None? then Collected()
      else Over() && FailedInCollect(sum.failed) && FailureOf(sum.failed[|sum.failed| - 1]) == r
    }

    method BeginCollect(ghost p: Phase, ghost r: Option<Failure>)
      requires if r.None? then Ready(4) else p != Collect && Checked(p, r)
      modifies this`left, emitter
      ensures Disposable() && sandboxId == sum.created && left == CollectPlan(cfg, sum.created)
      ensures r == (if sum.failed == [] then None else FailureOf(sum.failed[0])) && (r.None? <==> sum.failed == [])
    {
      hide Progress, OnPlan, Fold, Lawful, Brackets, Successes, FailureEntry, FailureOf, PhaseOf, CollectPlan;
      MainLogEnd(cfg, sum.failed, sum.late);
      MainPlanned(p, r);
      left := CollectPlan(cfg, sum.created);
      CollectPlanned();
      StartPhase(Collect);
    }

    lemma {:induction false} MainPlanned(p: Phase, r: Option<Failure>)
      requires if r.None? then Ready(4) else p != Collect && Checked(p, r)
      ensures MainMade(cfg, sum.failed, sum.calls) && sum.calls.collect == []
    {
      hide Progress, PlanOf, Prepended, Fold, Lawful, Brackets, Successes, FailureEntry, FailureOf, PhaseOf, Reports;
      if r.Some? {
        PlanIgnoresId(cfg, sum.created, p);
        assert Prepended(sum.calls.Of(p), left) == PlanOf(cfg, "", p);
      }
    }

    lemma {:induction false} CollectPlanned()
      requires sum.calls.collect == [] && left == CollectPlan(cfg, sum.created)
      ensures OnPlan(Collect)
    {
    }

    /** A call during collection whose error is only noted. */
    method Note(op: Op) returns (err: Option<Failure>)
      requires Disposable() && sum.built && sum.creates == 1
      requires QuietOp(sum, op) && Due(op)
      modifies this`transcript, this`sum, this`left
      ensures Disposable() && sum.built && sum.creates == 1 && sum.id == old(sum.id) && sum.failed == old(sum.failed)
      ensures left == old(left).rest && sum.created == old(sum.created)
    {
      hide MainMade, OnPlan, Called, Fold, Lawful, Brackets, FailureEntry, Reports, MainLog, FailedInMain, Spans, Next, Allowed;
      QuietAllowed(cfg, sum, op);
      err := Try(op);
      QuietStep(cfg, old(sum), op, err);
      MainMadeKept(cfg, sum.failed, old(sum.calls), op);
    }

    ghost predicate Disposable()
      reads this, emitter
    {
      Collecting() && sum.cleanups == 0 && !sum.cleanupFailed
    }

    method SyncOutWorkspace()
      requires Disposable() && cfg.Managed() && left == CollectPlan(cfg, sandboxId)
      modifies this`transcript, this`sum, this`left
      ensures Disposable() && sum.failed == old(sum.failed) && sum.created == old(sum.created)
      ensures left == if sandboxId == "" then WritePlan(cfg) else RefreshPlan(cfg, sandboxId)
    {
      hide MainMade, OnPlan, Fold, Lawful, Brackets, Successes, FailureEntry, RefreshPlan, WritePlan, Spans, Reports, MainLog;
      if backend && cfg.syncer && sandboxId != "" {
        emitter.EmitEvent("workspace.sync_out");
        var err := Note(SyncOut(sandboxId));
      }
    }

    method RefreshMetadata()
      requires Disposable() && cfg.Managed()
      requires left == if sandboxId == "" then WritePlan(cfg) else RefreshPlan(cfg, sandboxId)
      modifies this`transcript, this`sum, this`left, this`sandboxId
      ensures Disposable() && sum.failed == old(sum.failed) && sum.created == old(sum.created)
      ensures left == ContainerPlan(cfg, sandboxId)
    {
      hide MainMade, OnPlan, Fold, Lawful, Brackets, Successes, FailureEntry, WritePlan, Spans, Reports, MainLog;
      if backend && cfg.metadataProvider && sandboxId != "" {
        RefreshIdentity();
        if cfg.kind.OpenSandbox? {
          var err := Note(Endpoints(sandboxId));
        }
      }
    }

    /** A refresh may change the sandbox's identifier. */
    method RefreshIdentity()
      requires Disposable() && sum.built && sum.id != "" && Due(Metadata(sandboxId))
      modifies this`transcript, this`sum, this`left, this`sandboxId
      ensures Disposable() && sum.built && sum.creates == 1 && sum.failed == old(sum.failed)
      ensures left == old(left).rest && sum.created == old(sum.created)
      ensures sandboxId == if cfg.answers.refreshedId.Some? then cfg.answers.refreshedId.value else old(sandboxId)
    {
      hide MainMade, OnPlan, Called, Fold, Lawful, Brackets, FailureEntry, Reports, MainLog, MainRank, Spans;
      var id, err := Lookup(Metadata(sandboxId));
      MainMadeKept(cfg, sum.failed, old(sum.calls), Metadata(sandboxId));
      if err.None? {
        sandboxId := id;
      }
    }

    method RefreshContainer()
      requires Disposable() && cfg.Managed() && left == ContainerPlan(cfg, sandboxId)
      modifies this`transcript, this`sum, this`left
      ensures Disposable() && sum.failed == old(sum.failed) && sum.created == old(sum.created)
      ensures left == DisposalPlan(cfg, sandboxId)
    {
      hide MainMade, OnPlan, Fold, Lawful, Brackets, Successes, FailureEntry, DisposalPlan, Spans, Reports, MainLog;
      if backend && cfg.devProvider && sandboxId != "" {
        var err := Note(DevMetadata(Collect, sandboxId));
      }
    }

    /** Keeping a sandbox calls nothing and cannot fail. */
    method Dispose(op: Op) returns (err: Option<Failure>)
      requires Disposable() && IsCleanup(op) && op.id == sum.id != "" && Due(op)
      modifies this`transcript, this`sum, this`left
      ensures Recorded() && sum == Next(cfg, old(sum), Step(op, Done(err))) && (op.Keep? ==> err.None?)
      ensures left == old(left).rest && OnPlan(Collect)
    {
      hide MainMade, OnPlan, Fold, Lawful, Brackets, Successes, FailureEntry, Next, Reports, MainLog, Spans;
      if op.Keep? {
        err := None;
        Record(op, Done(err));
      } else {
        err := Try(op);
      }
    }

    method CleanupBackend() returns (err: Option<Failure>)
      requires Disposable() && Recorded() && sandboxId == sum.id
      requires sandboxId != "" ==> backend && emitter != null && Due(CleanupOp(cfg, sandboxId))
      requires sandboxId != "" ==> cfg.Managed() && pauseResume == cfg.answers.pauseResume
      modifies this`transcript, this`sum, this`left
      ensures Recorded()
      ensures if cfg.Managed() && sandboxId != "" then
          var op := CleanupOp(cfg, sandboxId);
          sum == Next(cfg, old(sum), Step(op, Done(err))) && (op.Keep? ==> err.None?) && left == old(left).rest
        else err.None? && sum == old(sum) && left == old(left)
      ensures OnPlan(Collect)
    {
      hide OnPlan, Fold, Lawful, MainOver, Next;
      err := None;
      if !backend || sandboxId == "" || !cfg.Managed() {
        return;
      }
      if cfg.kind.DevContainer? || cfg.kind.AppleContainer? {
        if cfg.cleanup.KeepMode? {
          emitter.EmitEvent("keep");
          err := Dispose(Keep(sandboxId));
          return;
        }
        emitter.EmitEvent("delete");
        err := Dispose(Delete(sandboxId));
        return;
      }
      if cfg.kind.OrbStackMachine? {
        match cfg.cleanup {
          case StopMode =>
            emitter.EmitEvent("machine.stop");
          case DeleteMode =>
            emitter.EmitEvent("machine.delete");
          case _ =>
            emitter.EmitEvent("machine.keep");
            err := Dispose(Keep(sandboxId));
            return;
        }
        err := Dispose(Delete(sandboxId));
        return;
      }
      match cfg.cleanup {
        case KeepMode =>
          emitter.EmitEvent("sandbox.cleanup.keep");
          err := Dispose(Keep(sandboxId));
        case PauseMode =>
          emitter.EmitEvent("sandbox.pause");
          err := Dispose(Pause(sandboxId));
        case PauseElseKeepMode =>
          if pauseResume {
            emitter.EmitEvent("sandbox.cleanup.pause");
            err := Dispose(Pause(sandboxId));
          } else {
            emitter.EmitEvent("sandbox.cleanup.keep");
            err := Dispose(Keep(sandboxId));
          }
        case _ =>
          emitter.EmitEvent("sandbox.cleanup.delete");
          err := Dispose(Delete(sandboxId));
      }
    }

    /** An error of cleanup makes a success partial. */
    method DisposeOfSandbox()
      requires Disposable() && cfg.Managed() && left == DisposalPlan(cfg, sandboxId)
      modifies this`transcript, this`sum, this`left, this`result
      ensures Collecting() && Disposed() && sum.failed == old(sum.failed) && left == WritePlan(cfg)
    {
      hide MainMade, OnPlan, Called, Fold, Lawful, Brackets, MainLog, MainRank, FailedInMain, Next, Allowed, Reports, WritePlan;
      CleanupIsOne(cfg, sandboxId);
      var err := CleanupBackend();
      if sandboxId != "" {
        CleanupStep(cfg, old(sum), CleanupOp(cfg, sandboxId), err);
        MainMadeKept(cfg, sum.failed, old(sum.calls), CleanupOp(cfg, sandboxId));
      }
      PartialCleanup(result, sum.failed, err);
      if err.Some? && result.status == Succeeded {
        result := result.(status := Partial);
      }
    }

    method CollectSandbox()
      requires Disposable() && sandboxId == sum.created && left == CollectPlan(cfg, sum.created)
      modifies this`transcript, this`sum, this`left, this`sandboxId, this`result
      ensures Collecting() && Disposed() && sum.failed == old(sum.failed) && left == WritePlan(cfg)
    {
      if cfg.Managed() {
        hide Disposable, Collecting, RefreshPlan, ContainerPlan, DisposalPlan, WritePlan;
        SyncOutWorkspace();
        RefreshMetadata();
        RefreshContainer();
        DisposeOfSandbox();
      }
    }

    /** The failure `step` of collection has not been recorded yet; before it, `failed` were. */
    ghost predicate CollectBreaking(failed: seq<Step>, step: Step)
      reads this, emitter
    {
      && Coherent() && Disposed() && sum.writer && sum.failed == failed + [step]
      && |failed| <= 1 && (failed != [] ==> FailedInMain(failed)) && PhaseOf(step.op) == Collect
      && MainMade(cfg, failed, sum.calls) && OnPlan(Collect)
      && phases == (if step.op == Write(Replay) then MainLog(cfg, failed, sum.late)
                    else MainLog(cfg, failed, sum.late) + [SuccessEntry(Collect, false)])
      && Spans({Collect}, Brackets(MainLog(cfg, failed, sum.late)) + [Started(Collect)])
    }

    method FailCollect(err: Failure, ghost failed: seq<Step>, ghost step: Step) returns (r: Option<Failure>)
      requires CollectBreaking(failed, step) && step.outcome == Done(Some(err)) && DefaultCode(step.op) == CollectFailed
      modifies this`phases, this`result, emitter
      ensures r == Some(err) && CollectChecked(r) && sum.failed == failed + [step]
    {
      hide Progress, OnPlan, PlanOf, Fold, Lawful, Brackets, Successes, MainLog, PhaseOf, DefaultCode, MainRank, FailedInMain;
      MainLogEnd(cfg, failed, sum.late);
      MainMadeThenFailed(cfg, failed, step, sum.calls);
      LogAfterCollectFailure(cfg, failed, sum.late, step);
      BracketsAfterCollectFailure(MainLog(cfg, failed, sum.late), FailureEntry(step));
      r := FailPhase(Collect, CollectFailed, err);
    }

    /** Writing the replay manifest, then recording the success of collection. */
    method RecordCollect() returns (r: Option<Failure>)
      requires Collecting() && Disposed() && left == WritePlan(cfg)
      modifies this`transcript, this`sum, this`left, this`phases, this`result, emitter
      ensures CollectChecked(r) && SameMain(old(sum), sum, r) && sum.upload.None?
      ensures r.None? ==> left == SummaryPlan(cfg)
    {
      hide Collecting, Collected, CollectBreaking, Over, Disposed, SummaryPlan;
      ghost var failed := sum.failed;
      var err := WriteReplay();
      if err.Some? {
        r := FailCollect(err.value, failed, Step(Write(Replay), Done(err)));
        return;
      }
      RecordCollectSuccess();
      r := None;
    }

    method WriteReplay() returns (err: Option<Failure>)
      requires Collecting() && Disposed() && Due(Write(Replay))
      modifies this`transcript, this`sum, this`left
      ensures left == old(left).rest
      ensures if err.None? then Collecting() && Disposed() && sum.failed == old(sum.failed)
        else CollectBreaking(old(sum.failed), Step(Write(Replay), Done(err)))
      ensures sum.upload.None?
    {
      hide MainMade, OnPlan, Called, Fold, Lawful, Brackets, MainLog, FailureEntry, Next, Allowed, FailedInMain, Reports;
      CollectOpAllowed(cfg, sum, Write(Replay));
      err := Try(Write(Replay));
      CollectOpStep(cfg, old(sum), Write(Replay), err);
      MainMadeKept(cfg, old(sum.failed), old(sum.calls), Write(Replay));
    }

    method RecordCollectSuccess()
      requires Collecting() && Disposed()
      modifies this`phases, this`result
      ensures Collected()
    {
      hide MainMade, OnPlan, Fold, Lawful, Brackets, MainLog, FailureEntry, FailedInMain;
      phases := phases + [Entry(Collect, Succeeded, NoCode, None, 0, false)];
      result := result.(phase := Collect, status := if result.status == Created then Succeeded else result.status);
    }

    method TryCollect(op: Op) returns (err: Option<Failure>)
      requires Collected() && CollectOp(op) && op != Write(Replay) && Due(op)
      modifies this`transcript, this`sum, this`left
      ensures if err.None? then Collected() else CollectBreaking(old(sum.failed), Step(op, Done(err)))
      ensures left == old(left).rest && sum.upload == old(sum.upload)
      ensures sum.failed == old(sum.failed) + if err.Some? then [Step(op, Done(err))] else []
    {
      hide MainMade, OnPlan, Called, Fold, Lawful, Brackets, MainLog, FailureEntry, PhaseOf, DefaultCode, Reports;
      hide Next, Allowed, FailedInMain, Spans;
      CollectOpAllowed(cfg, sum, op);
      err := Try(op);
      CollectOpStep(cfg, old(sum), op, err);
      MainMadeKept(cfg, old(sum.failed), old(sum.calls), op);
    }

    method CollectOrFail(op: Op) returns (r: Option<Failure>)
      requires Collected() && CollectOp(op) && op != Write(Replay) && Due(op)
      modifies this`transcript, this`sum, this`left, this`phases, this`result, emitter
      ensures CollectChecked(r) && SameMain(old(sum), sum, r) && sum.upload == old(sum.upload)
      ensures left == old(left).rest
    {
      hide Collected, CollectBreaking, Over, PhaseOf, DefaultCode, FailureEntry;
      ghost var failed := sum.failed;
      CollectOpStep(cfg, sum, op, None);
      var err := TryCollect(op);
      if err.Some? {
        r := FailCollect(err.value, failed, Step(op, Done(err)));
        return;
      }
      r := None;
    }

    method WriteSummary() returns (r: Option<Failure>)
      requires Collected() && sum.upload.None? && left == SummaryPlan(cfg)
      modifies this`transcript, this`sum, this`left, this`phases, this`result, emitter
      ensures CollectChecked(r) && SameMain(old(sum), sum, r) && sum.upload.None?
      ensures r.None? ==> left == UploadPlan(cfg)
    {
      hide Collected, Over, UploadPlan;
      r := CollectOrFail(Write(Phases));
      if r.Some? {
        return;
      }
      r := CollectOrFail(Write(Results));
      if r.Some? {
        return;
      }
      r := WriteIndexAndList();
    }

    method WriteIndexAndList() returns (r: Option<Failure>)
      requires Collected() && sum.upload.None? && left == SummaryPlan(cfg).rest.rest
      modifies this`transcript, this`sum, this`left, this`phases, this`result, emitter
      ensures CollectChecked(r) && SameMain(old(sum), sum, r) && sum.upload.None?
      ensures r.None? ==> left == UploadPlan(cfg)
    {
      hide Collected, Over, UploadPlan;
      r := CollectOrFail(Write(Index));
      if r.Some? {
        return;
      }
      r := CollectOrFail(Refs);
    }

    /** The error of an upload is returned but does not fail the phase: it makes a success partial. */
    method TryUpload(op: Op) returns (err: Option<Failure>)
      requires Collected() && IsUpload(op) && sum.upload.None? && Due(op)
      modifies this`transcript, this`sum, this`left, this`result
      ensures Collected() && SameMain(old(sum), sum, None) && sum.upload == err
      ensures left == old(left).rest && (op.Upload? ==> (err.None? <==> cfg.answers.uploads))
    {
      hide CollectedBut, Collected;
      err := SendFiles(op);
      ReportUpload(err);
    }

    method ReportUpload(err: Option<Failure>)
      requires CollectedBut(None) && sum.upload == err
      modifies this`result
      ensures Collected()
    {
      hide MainMade, OnPlan, Fold, Lawful, Brackets, MainLog, FailedInMain, Reports, Spans;
      PartialUpload(result, sum.failed, sum.cleanupFailed, err);
      result := if err.Some? && result.status == Succeeded then
          result.(status := Partial, code := ArtifactUploadFailed, message := err.value.text) else result;
    }

    /** An upload; its error is not reported yet. */
    method SendFiles(op: Op) returns (err: Option<Failure>)
      requires Collected() && IsUpload(op) && sum.upload.None? && Due(op)
      modifies this`transcript, this`sum, this`left
      ensures CollectedBut(None) && SameMain(old(sum), sum, None) && sum.upload == err
      ensures left == old(left).rest && (op.Upload? ==> (err.None? <==> cfg.answers.uploads))
    {
      hide MainMade, OnPlan, Called, Fold, Lawful, Brackets, MainLog, FailedInMain, Next, Allowed, Reports, Spans;
      UploadAllowed(cfg, sum, op);
      err := Try(op);
      UploadStep(cfg, old(sum), op, err);
      MainMadeKept(cfg, sum.failed, old(sum.calls), op);
    }

    method FinishCollect()
      requires Collected() && left == End
      modifies emitter
      ensures Over() && !FailedInCollect(sum.failed)
    {
      hide MainMade, OnPlan, Fold, Lawful, Successes, MainLog, Reports, FailureEntry;
      MainLogEnd(cfg, sum.failed, sum.late);
      BracketsSnoc(MainLog(cfg, sum.failed, sum.late), SuccessEntry(Collect, false));
      hide Brackets;
      EndPhase(Collect, Succeeded);
    }

    method UploadArtifacts() returns (r: Option<Failure>)
      requires Collected() && sum.upload.None? && left == UploadPlan(cfg)
      modifies this`transcript, this`sum, this`left, this`phases, this`result, emitter
      ensures Over() && Returns(old(sum.failed), r)
    {
      hide Collected, Over;
      var uploadErr := TryUpload(Upload);
      r := CollectOrFail(Write(FinalResults));
      if r.Some? {
        return;
      }
      r := CollectOrFail(Write(FinalIndex));
      if r.Some? {
        return;
      }
      if uploadErr.None? && cfg.upload {
        uploadErr := TryUpload(UploadSummary);
      }
      FinishCollect();
      r := uploadErr;
    }

    /** What collection returns, when `failed` had failed before: the failure it added to them, else
        the error of an upload. */
    ghost predicate Returns(failed: seq<Step>, r: Option<Failure>)
      reads this
    {
      if sum.failed == failed then r == sum.upload
      else |sum.failed| == |failed| + 1 && failed <= sum.failed && FailureOf(sum.failed[|failed|]) == r && r.Some?
    }

    /** `p` and `prior` say how the main phases ended. */
    method RunCollect(ghost p: Phase, ghost prior: Option<Failure>) returns (r: Option<Failure>)
      requires if prior.None? then Ready(4) else p != Collect && Checked(p, prior)
      modifies this`transcript, this`sum, this`left, this`phases, this`result, this`sandboxId, emitter
      ensures Over()
      ensures (if prior.Some? then prior else r) == Verdict(sum.failed, sum.upload)
    {
      hide Ready, Checked, Disposable, Collecting, Collected, Over;
      BeginCollect(p, prior);
      ghost var failed := sum.failed;
      CollectSandbox();
      r := WriteCollection();
      assert Returns(failed, r);
    }

    method WriteCollection() returns (r: Option<Failure>)
      requires Collecting() && Disposed() && left == WritePlan(cfg)
      modifies this`transcript, this`sum, this`left, this`phases, this`result, emitter
      ensures Over() && Returns(old(sum.failed), r)
    {
      hide Disposed, Collecting, Collected, Over, SummaryPlan, UploadPlan;
      r := RecordCollect();
      if r.Some? {
        return;
      }
      r := WriteSummary();
      if r.Some? {
        return;
      }
      r := UploadArtifacts();
    }

    // ---- the run ----

    method Run() returns (err: Option<Failure>)
      requires Unprepared() && !backend && left == PreparePlan(cfg)
      modifies this
      ensures Coherent() && writer == sum.writer
      ensures err == Verdict(sum.failed, sum.upload)
      ensures writer ==> phases == ExpectedLog(cfg, sum.failed, sum.late) && result.phase == Collect && Disposed()
      ensures !writer ==> phases == [] && emitter == null && sum.creates == 0 && |sum.failed| == 1
      ensures Reports(result, sum.failed, sum.cleanupFailed, sum.upload)
      ensures emitter != null ==> emitter.phaseSpans == {} && !emitter.runSpan && emitter.log == Brackets(phases)
      ensures writer ==> MainMade(cfg, sum.failed, sum.calls) && OnPlan(Collect)
      ensures writer && !FailedInCollect(sum.failed) ==> left == End
      ensures !writer ==> Progress(cfg, 0, sum.calls) && sum.calls.collect == [] && OnPlan(Prepare)
    {
      hide MainMade, Progress, OnPlan, FailedInCollect, Ready, Checked, Unrecorded, Over, Verdict;
      err := RunPrepare();
      if err.Some? && !writer {
        EarlyEnd(err);
        return;
      }
      ghost var p := Prepare;
      if err.None? {
        p, err := RunMain();
      }
      var collectErr := RunCollect(p, err);
      if err.None? {
        err := collectErr;
      }
      EndRun();
    }

    lemma {:induction false} EarlyEnd(err: Option<Failure>)
      requires Unrecorded(err)
      ensures Coherent() && !writer && emitter == null && phases == [] && sum.creates == 0 && |sum.failed| == 1
      ensures Progress(cfg, 0, sum.calls) && sum.calls.collect == [] && OnPlan(Prepare)
      ensures err == Verdict(sum.failed, sum.upload) && Reports(result, sum.failed, sum.cleanupFailed, sum.upload)
    {
    }

    /** `p` is the phase that failed, if one did. */
    method RunMain() returns (ghost p: Phase, err: Option<Failure>)
      requires Ready(1)
      modifies this`transcript, this`sum, this`left, this`phases, this`result, this`executor, emitter
      ensures if err.None? then Ready(4) else p != Collect && Checked(p, err)
    {
      hide Ready, Checked;
      p := Setup;
      err := RunSetup();
      if err.None? {
        p := Execute;
        err := RunExecute();
        if err.None? {
          p := Verify;
          err := RunVerify();
        }
      }
    }

    /** The run span is ended last. */
    method EndRun()
      requires Over()
      modifies emitter
      ensures Coherent() && writer && Disposed() && phases == ExpectedLog(cfg, sum.failed, sum.late)
      ensures result.phase == Collect && Reports(result, sum.failed, sum.cleanupFailed, sum.upload)
      ensures MainMade(cfg, sum.failed, sum.calls) && OnPlan(Collect) && (!FailedInCollect(sum.failed) ==> left == End)
      ensures emitter != null ==> emitter.phaseSpans == {} && !emitter.runSpan && emitter.log == Brackets(phases)
    {
      hide MainMade, OnPlan, Fold, Lawful, Brackets, ExpectedLog, Reports;
      if emitter != null {
        emitter.EndRun(result.status);
      }
    }
  }
}
