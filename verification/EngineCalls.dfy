/** What a run calls: the calls of a transcript against the plans of its phases, counted, and in plain
    terms for setup, verification, preparation, collection and the sandbox. */
module EngineCalls {
  import opened Wrappers
  import opened EngineTranscript
  import opened EnginePlan
  import opened EngineReport

  /** The rank of the main phase that failed; 4 if none did. */
  function ReachedRank(cfg: Config, t: Transcript): nat {
    if Fold(cfg, t).writer then MainRank(Failures(cfg, t)) else 0
  }

  /** Each phase has made exactly the calls of its plan if nothing failed in it, only the first of them
      if something did, and none after a main phase that failed. */
  ghost predicate AsPlanned(cfg: Config, t: Transcript) {
    && (forall p: Phase :: p != Collect ==> PhaseAsPlanned(cfg, t, p))
    && (if !Fold(cfg, t).writer then CallsOf(t, Collect) == []
        else if FailedInCollect(Failures(cfg, t)) then Follows(CallsOf(t, Collect), CollectPlan(cfg, CreatedId(t)))
        else Listed(CallsOf(t, Collect)) == CollectPlan(cfg, CreatedId(t)))
  }

  ghost predicate PhaseAsPlanned(cfg: Config, t: Transcript, p: Phase) {
    if Rank(p) < ReachedRank(cfg, t) then Listed(CallsOf(t, p)) == PlanOf(cfg, "", p)
    else if Rank(p) == ReachedRank(cfg, t) then Follows(CallsOf(t, p), PlanOf(cfg, "", p))
    else CallsOf(t, p) == []
  }

  /** From the summary of a finished run, `left` being what is still planned of its last phase. */
  lemma {:induction false} SummaryIsPlanned(cfg: Config, t: Transcript, left: Script)
    requires var s := Fold(cfg, t);
      if s.writer then
        && MainMade(cfg, s.failed, s.calls) && PlanOf(cfg, s.created, Collect) == Prepended(s.calls.Of(Collect), left)
        && (!FailedInCollect(s.failed) ==> left == End)
      else
        && Progress(cfg, 0, s.calls) && s.calls.collect == []
        && PlanOf(cfg, s.created, Prepare) == Prepended(s.calls.Of(Prepare), left)
    ensures AsPlanned(cfg, t)
  {
    hide Fold, CallsOf, Failures, CreatedId, Prepended, SetupPlan, ExecutePlan, VerifyPlan, PreparePlan, CollectPlan;
    FoldCounts(cfg, t);
    forall p: Phase ensures Fold(cfg, t).calls.Of(p) == CallsOf(t, p) {
      FoldCalls(cfg, t, p);
    }
  }

  // ---- counting ----

  function Occurs(script: Script, op: Op): nat {
    match script
    case End => 0
    case Then(o, rest) => (if o == op then 1 else 0) + Occurs(rest, op)
  }

  function Once(b: bool): nat {
    if b then 1 else 0
  }

  lemma {:induction false} OccursThen(first: Op, rest: Script, op: Op)
    ensures Occurs(Then(first, rest), op) == Once(op == first) + Occurs(rest, op)
  {
  }

  lemma {:induction false} CallsOccur(t: Transcript, op: Op, rest: Script)
    ensures Occurs(Prepended(CallsOf(t, PhaseOf(op)), rest), op) == Count(t, op) + Occurs(rest, op)
  {
    hide PhaseOf, Prepended, Occurs;
    if t == [] {
      NothingPrepended(rest);
    } else {
      var front, last := t[..|t| - 1], t[|t| - 1].op;
      if PhaseOf(last) == PhaseOf(op) {
        PrependedSnoc(CallsOf(front, PhaseOf(op)), last, rest);
        OccursThen(last, rest, op);
        CallsOccur(front, op, Then(last, rest));
      } else {
        CallsOccur(front, op, rest);
      }
    }
  }

  lemma {:induction false} NothingPrepended(rest: Script)
    ensures Prepended([], rest) == rest
  {
  }

  /** A phase that has succeeded calls what its plan holds, as often as it does; one that has failed not
      more often. */
  lemma {:induction false} PlannedCounts(cfg: Config, t: Transcript, op: Op)
    requires AsPlanned(cfg, t) && PhaseOf(op) != Collect
    ensures Count(t, op) <= Occurs(PlanOf(cfg, "", PhaseOf(op)), op)
    ensures Rank(PhaseOf(op)) < ReachedRank(cfg, t) ==> Count(t, op) == Occurs(PlanOf(cfg, "", PhaseOf(op)), op)
    ensures Rank(PhaseOf(op)) > ReachedRank(cfg, t) ==> Count(t, op) == 0
  {
    hide PhaseOf, PlanOf, CallsOf, ReachedRank, Occurs, Prepended, Count;
    var p, plan := PhaseOf(op), PlanOf(cfg, "", PhaseOf(op));
    assert PhaseAsPlanned(cfg, t, p);
    NothingOccurs(op);
    CallsOccur(t, op, End);
    if Rank(p) == ReachedRank(cfg, t) {
      var rest :| Prepended(CallsOf(t, p), rest) == plan;
      CallsOccur(t, op, rest);
    }
  }

  lemma {:induction false} NothingOccurs(op: Op)
    ensures Occurs(End, op) == 0 && Prepended([], End) == End
  {
  }

  // ---- setup ----

  lemma {:induction false} StepsOccur(n: nat, op: Op)
    ensures Occurs(StepsPlan(n), op) == n * Once(op == CheckCommand(Setup) || op == Secrets(Setup) || op == Exec(Setup))
  {
    if n > 0 {
      hide Occurs;
      var run := Then(Exec(Setup), StepsPlan(n - 1));
      StepsOccur(n - 1, op);
      OccursThen(Exec(Setup), StepsPlan(n - 1), op);
      OccursThen(Secrets(Setup), run, op);
      OccursThen(CheckCommand(Setup), Then(Secrets(Setup), run), op);
    } else {
      NothingOccurs(op);
    }
  }

  lemma {:induction false} SetupOccur(cfg: Config, op: Op)
    ensures Occurs(SetupPlan(cfg), op)
      == Once(op == Network(Setup)) + Once(op == Plan) + Once(op == Write(SetupPlanFile)) + Once(op == Write(EnvironmentFile))
       + Once(op == NewExecutor(Setup))
       + cfg.steps * Once(op == CheckCommand(Setup) || op == Secrets(Setup) || op == Exec(Setup))
  {
    hide StepsPlan, Occurs;
    var executor := Then(NewExecutor(Setup), StepsPlan(cfg.steps));
    var files := Then(Write(SetupPlanFile), Then(Write(EnvironmentFile), executor));
    StepsOccur(cfg.steps, op);
    OccursThen(NewExecutor(Setup), StepsPlan(cfg.steps), op);
    OccursThen(Write(EnvironmentFile), executor, op);
    OccursThen(Write(SetupPlanFile), Then(Write(EnvironmentFile), executor), op);
    OccursThen(Plan, files, op);
    OccursThen(Network(Setup), Then(Plan, files), op);
  }

  /** A setup that succeeds makes each of its calls once, and checks, gives secrets to, and runs every
      step of its plan. */
  lemma {:induction false} SetupCounts(cfg: Config, t: Transcript, op: Op)
    requires AsPlanned(cfg, t) && cfg.setup && ReachedRank(cfg, t) > 1 && PhaseOf(op) == Setup
    ensures Count(t, op)
      == Once(op == Network(Setup)) + Once(op == Plan) + Once(op == Write(SetupPlanFile)) + Once(op == Write(EnvironmentFile))
       + Once(op == NewExecutor(Setup))
       + cfg.steps * Once(op == CheckCommand(Setup) || op == Secrets(Setup) || op == Exec(Setup))
  {
    hide AsPlanned, ReachedRank, Count, SetupPlan, Occurs, PhaseOf;
    PlannedCounts(cfg, t, op);
    SetupOccur(cfg, op);
  }

  // ---- execution ----

  lemma {:induction false} ExecuteOccur(cfg: Config, op: Op)
    ensures Occurs(ExecutePlan(cfg), op)
      == if !cfg.hasCommand then Once(op == RequireCommand)
         else
           Once(op == Network(Execute)) + Once(op == Secrets(Execute)) + Once(op == ResolveAdapter) + Once(op == RewriteCommand)
           + Once(op == CheckCommand(Execute)) + Once(op == NewExecutor(Execute) && !cfg.setup) + Once(op == Exec(Execute))
  {
    hide Occurs;
    NothingOccurs(op);
    OccursThen(RequireCommand, End, op);
    var run := Then(Exec(Execute), End);
    var chosen := if cfg.setup then run else Then(NewExecutor(Execute), run);
    OccursThen(Exec(Execute), End, op);
    OccursThen(NewExecutor(Execute), run, op);
    OccursThen(CheckCommand(Execute), chosen, op);
    OccursThen(RewriteCommand, Then(CheckCommand(Execute), chosen), op);
    var adapter := Then(ResolveAdapter, CommandPlan(cfg));
    OccursThen(ResolveAdapter, CommandPlan(cfg), op);
    OccursThen(Secrets(Execute), adapter, op);
    OccursThen(Network(Execute), Then(Secrets(Execute), adapter), op);
  }

  /** An execution that succeeds makes each of its calls once; setup's executor is kept. */
  lemma {:induction false} ExecuteCounts(cfg: Config, t: Transcript, op: Op)
    requires AsPlanned(cfg, t) && cfg.execute && ReachedRank(cfg, t) > 2 && PhaseOf(op) == Execute
    ensures Count(t, op)
      == if !cfg.hasCommand then Once(op == RequireCommand)
         else
           Once(op == Network(Execute)) + Once(op == Secrets(Execute)) + Once(op == ResolveAdapter) + Once(op == RewriteCommand)
           + Once(op == CheckCommand(Execute)) + Once(op == NewExecutor(Execute) && !cfg.setup) + Once(op == Exec(Execute))
  {
    hide AsPlanned, ReachedRank, Count, ExecutePlan, Occurs, PhaseOf;
    PlannedCounts(cfg, t, op);
    ExecuteOccur(cfg, op);
  }

  // ---- verification ----

  lemma {:induction false} StatsOccur(n: nat, op: Op)
    ensures Occurs(StatsPlan(n), op) == n * Once(op == Stat)
  {
    if n > 0 {
      StatsOccur(n - 1, op);
    }
  }

  lemma {:induction false} DownloadsOccur(cfg: Config, n: nat, op: Op)
    ensures Occurs(DownloadsPlan(cfg, n), op)
      == n * Once(op == Download(cfg.answers.sandboxId)) + cfg.expected * Once(op == Stat)
  {
    if n == 0 {
      StatsOccur(cfg.expected, op);
    } else {
      DownloadsOccur(cfg, n - 1, op);
    }
  }

  predicate Downloads(cfg: Config) {
    cfg.kind.OpenSandbox? && cfg.downloader && cfg.answers.sandboxId != ""
  }

  lemma {:induction false} VerifyOccur(cfg: Config, op: Op)
    ensures Occurs(VerifyPlan(cfg), op)
      == Once(op == Network(Verify)) + Once(op == CheckCommand(Verify) && cfg.hasSmoke)
       + Once(op == NewExecutor(Verify) && cfg.hasSmoke && !cfg.setup && !cfg.execute)
       + Once(op == Secrets(Verify) && cfg.hasSmoke) + Once(op == Exec(Verify) && cfg.hasSmoke)
       + cfg.expected * Once(op == Download(cfg.answers.sandboxId) && Downloads(cfg)) + cfg.expected * Once(op == Stat)
  {
    hide Occurs, StatsPlan, DownloadsPlan;
    StatsOccur(cfg.expected, op);
    DownloadsOccur(cfg, cfg.expected, op);
    var artifacts := ArtifactsPlan(cfg);
    OccursThen(Exec(Verify), artifacts, op);
    OccursThen(Secrets(Verify), Then(Exec(Verify), artifacts), op);
    OccursThen(NewExecutor(Verify), SmokeRunPlan(cfg), op);
    OccursThen(CheckCommand(Verify), SmokePlan(cfg).rest, op);
    OccursThen(Network(Verify), VerifyPlan(cfg).rest, op);
  }

  /** A verification that succeeds looks for every expected artifact, after downloading each from a
      sandbox that can download; the smoke command, if there is one, is checked and run once. */
  lemma {:induction false} VerifyCounts(cfg: Config, t: Transcript, op: Op)
    requires AsPlanned(cfg, t) && cfg.verify && ReachedRank(cfg, t) > 3 && PhaseOf(op) == Verify
    ensures Count(t, op)
      == Once(op == Network(Verify)) + Once(op == CheckCommand(Verify) && cfg.hasSmoke)
       + Once(op == NewExecutor(Verify) && cfg.hasSmoke && !cfg.setup && !cfg.execute)
       + Once(op == Secrets(Verify) && cfg.hasSmoke) + Once(op == Exec(Verify) && cfg.hasSmoke)
       + cfg.expected * Once(op == Download(cfg.answers.sandboxId) && Downloads(cfg)) + cfg.expected * Once(op == Stat)
  {
    hide AsPlanned, ReachedRank, Count, VerifyPlan, Occurs, PhaseOf, Downloads;
    PlannedCounts(cfg, t, op);
    VerifyOccur(cfg, op);
  }

  // ---- a setup that fails ----

  ghost predicate Suffix(s: Script, whole: Script)
    decreases whole
  {
    s == whole || (whole.Then? && Suffix(s, whole.rest))
  }

  lemma {:induction false} RestIsSuffix(calls: seq<Op>, rest: Script)
    ensures Suffix(rest, Prepended(calls, rest))
  {
    if calls != [] {
      RestIsSuffix(calls[..|calls| - 1], Then(calls[|calls| - 1], rest));
      TailIsSuffix(Then(calls[|calls| - 1], rest), Prepended(calls, rest));
    }
  }

  lemma {:induction false} TailIsSuffix(s: Script, whole: Script)
    requires s.Then? && Suffix(s, whole)
    ensures Suffix(s.rest, whole)
    decreases whole
  {
    if s != whole {
      TailIsSuffix(s, whole.rest);
    }
  }

  /** What is left of the steps, once a call of a step has been made. */
  lemma {:induction false} StepsSuffix(n: nat, op: Op, rest: Script) returns (k: nat)
    requires Suffix(Then(op, rest), StepsPlan(n))
    ensures k < n && op in {CheckCommand(Setup), Secrets(Setup), Exec(Setup)}
    ensures op == CheckCommand(Setup) ==> rest == Then(Secrets(Setup), Then(Exec(Setup), StepsPlan(k)))
    ensures op == Secrets(Setup) ==> rest == Then(Exec(Setup), StepsPlan(k))
    ensures op == Exec(Setup) ==> rest == StepsPlan(k)
  {
    assert n > 0;
    var run := Then(Exec(Setup), StepsPlan(n - 1));
    var secrets := Then(Secrets(Setup), run);
    k := n - 1;
    if Then(op, rest) != StepsPlan(n) && Then(op, rest) != secrets && Then(op, rest) != run {
      assert Suffix(Then(op, rest), StepsPlan(n).rest);
      assert Suffix(Then(op, rest), secrets.rest);
      assert Suffix(Then(op, rest), run.rest);
      k := StepsSuffix(n - 1, op, rest);
    }
  }

  /** In whichever phase it is, the call that fails a main phase is the last of the phase. */
  lemma {:induction false} LastCallFailed(cfg: Config, t: Transcript)
    requires Lawful(cfg, t) && FailedInMain(Failures(cfg, t))
    ensures var op := Failures(cfg, t)[0].op; var calls := CallsOf(t, PhaseOf(op));
      calls != [] && calls[|calls| - 1] == op
  {
    var front, last := t[..|t| - 1], t[|t| - 1];
    FoldCounts(cfg, front);
    hide PhaseOf, Allowed, FailsFatally, Lawful;
    if Failures(cfg, front) != [] {
      NothingAfterMainFailure(cfg, front, last);
      LastCallFailed(cfg, front);
    }
  }

  lemma {:induction false} NothingAfterMainFailure(cfg: Config, front: Transcript, last: Step)
    requires Allowed(cfg, Fold(cfg, front), last.op) && Fold(cfg, front).failed != []
    ensures PhaseOf(last.op) == Collect
  {
    hide Fold, PhaseOf;
  }

  /** A setup that fails at a step has checked, given secrets to, and run each step before that one,
      and of that one only what came before the call that failed. */
  lemma {:induction false} FailedSetupStopsThere(cfg: Config, t: Transcript)
    requires Lawful(cfg, t) && AsPlanned(cfg, t) && Fold(cfg, t).writer
    requires FailedInMain(Failures(cfg, t)) && PhaseOf(Failures(cfg, t)[0].op) == Setup
    ensures var op, run := Failures(cfg, t)[0].op, Count(t, Exec(Setup));
      && run <= Count(t, Secrets(Setup)) <= Count(t, CheckCommand(Setup)) <= run + 1 <= cfg.steps + 1
      && (op == CheckCommand(Setup) ==> Count(t, CheckCommand(Setup)) == run + 1 && Count(t, Secrets(Setup)) == run < cfg.steps)
      && (op == Secrets(Setup) ==> Count(t, CheckCommand(Setup)) == Count(t, Secrets(Setup)) == run + 1 <= cfg.steps)
      && (op == Exec(Setup) ==> 0 < run == Count(t, CheckCommand(Setup)) == Count(t, Secrets(Setup)))
      && (op in SetupHead() ==> Count(t, CheckCommand(Setup)) == 0)
  {
    hide Fold, Lawful, Failures, Prepended, CallsOf, Count, Occurs, StepsPlan, PhaseOf;
    assert PhaseAsPlanned(cfg, t, Setup);
    var op, calls := Failures(cfg, t)[0].op, CallsOf(t, Setup);
    var rest :| Prepended(calls, rest) == PlanOf(cfg, "", Setup);
    LastCallFailed(cfg, t);
    CountsOfRest(cfg, t, op, calls[..|calls| - 1], rest);
  }

  /** From what is left of the plan after call `op`. */
  lemma {:induction false} CountsOfRest(cfg: Config, t: Transcript, op: Op, before: seq<Op>, rest: Script)
    requires CallsOf(t, Setup) == before + [op] && Prepended(CallsOf(t, Setup), rest) == PlanOf(cfg, "", Setup)
    ensures var run := Count(t, Exec(Setup));
      && run <= Count(t, Secrets(Setup)) <= Count(t, CheckCommand(Setup)) <= run + 1 <= cfg.steps + 1
      && (op == CheckCommand(Setup) ==> Count(t, CheckCommand(Setup)) == run + 1 && Count(t, Secrets(Setup)) == run < cfg.steps)
      && (op == Secrets(Setup) ==> Count(t, CheckCommand(Setup)) == Count(t, Secrets(Setup)) == run + 1 <= cfg.steps)
      && (op == Exec(Setup) ==> 0 < run == Count(t, CheckCommand(Setup)) == Count(t, Secrets(Setup)))
      && (op in SetupHead() ==> Count(t, CheckCommand(Setup)) == 0)
  {
    hide Prepended, CallsOf, Count, PlanOf, Suffix, PhaseOf, Occurs;
    PrependedSnoc(before, op, rest);
    RestIsSuffix(before, Then(op, rest));
    SetupRest(cfg, op, rest);
    PhasesOfSteps();
    CallsOccur(t, CheckCommand(Setup), rest);
    CallsOccur(t, Secrets(Setup), rest);
    CallsOccur(t, Exec(Setup), rest);
  }

  lemma {:induction false} PhasesOfSteps()
    ensures PhaseOf(CheckCommand(Setup)) == PhaseOf(Secrets(Setup)) == PhaseOf(Exec(Setup)) == Setup
  {
  }

  function SetupHead(): set<Op> {
    {Network(Setup), Plan, Write(SetupPlanFile), Write(EnvironmentFile), NewExecutor(Setup)}
  }

  /** How often the calls of a step are still to come, after `op`, and how often they are planned. */
  lemma {:induction false} SetupRest(cfg: Config, op: Op, rest: Script)
    requires Suffix(Then(op, rest), PlanOf(cfg, "", Setup))
    ensures var c, s, e := Occurs(rest, CheckCommand(Setup)), Occurs(rest, Secrets(Setup)), Occurs(rest, Exec(Setup));
      && (op == CheckCommand(Setup) ==> c + 1 == s == e <= cfg.steps)
      && (op == Secrets(Setup) ==> c == s == e - 1 < cfg.steps)
      && (op == Exec(Setup) ==> c == s == e < cfg.steps)
      && (op in SetupHead() ==> c == s == e == cfg.steps)
      && op in SetupHead() + {CheckCommand(Setup), Secrets(Setup), Exec(Setup)}
    ensures forall o :: o in {CheckCommand(Setup), Secrets(Setup), Exec(Setup)} ==>
      Occurs(PlanOf(cfg, "", Setup), o) == cfg.steps
  {
    hide StepsPlan, Suffix, Occurs, SetupPlan;
    SetupOccur(cfg, CheckCommand(Setup));
    SetupOccur(cfg, Secrets(Setup));
    SetupOccur(cfg, Exec(Setup));
    HeadOrSteps(cfg, op, rest);
    if Suffix(Then(op, rest), StepsPlan(cfg.steps)) {
      StepsLeft(cfg.steps, op, rest);
    }
  }

  /** What follows the calls ahead of the steps. */
  function AfterHead(cfg: Config, op: Op): Script {
    var executor := Then(NewExecutor(Setup), StepsPlan(cfg.steps));
    match op
    case Network(_) => Then(Plan, Then(Write(SetupPlanFile), Then(Write(EnvironmentFile), executor)))
    case Plan => Then(Write(SetupPlanFile), Then(Write(EnvironmentFile), executor))
    case Write(artifact) => if artifact.SetupPlanFile? then Then(Write(EnvironmentFile), executor) else executor
    case _ => StepsPlan(cfg.steps)
  }

  lemma {:induction false} SuffixOfThen(s: Script, o: Op, rest: Script)
    requires Suffix(s, Then(o, rest))
    ensures s == Then(o, rest) || Suffix(s, rest)
  {
  }

  lemma {:induction false} HeadOrSteps(cfg: Config, op: Op, rest: Script)
    requires Suffix(Then(op, rest), PlanOf(cfg, "", Setup))
    ensures cfg.setup
    ensures Suffix(Then(op, rest), StepsPlan(cfg.steps))
      || (op in SetupHead() && forall o :: o in {CheckCommand(Setup), Secrets(Setup), Exec(Setup)} ==> Occurs(rest, o) == cfg.steps)
  {
    NothingIsSuffix(op, rest);
    hide StepsPlan, Suffix, Occurs;
    var s, executor := Then(op, rest), AfterHead(cfg, Write(EnvironmentFile));
    var environment, plan := AfterHead(cfg, Write(SetupPlanFile)), AfterHead(cfg, Plan);
    SuffixOfThen(s, Network(Setup), AfterHead(cfg, Network(Setup)));
    if s != SetupPlan(cfg) {
      SuffixOfThen(s, Plan, plan);
      if s != Then(Plan, plan) {
        SuffixOfThen(s, Write(SetupPlanFile), environment);
        if s != plan {
          SuffixOfThen(s, Write(EnvironmentFile), executor);
          if s != environment {
            SuffixOfThen(s, NewExecutor(Setup), StepsPlan(cfg.steps));
          }
        }
      }
    }
    AfterHeadOccurs(cfg, CheckCommand(Setup));
    AfterHeadOccurs(cfg, Secrets(Setup));
    AfterHeadOccurs(cfg, Exec(Setup));
  }

  lemma {:induction false} NothingIsSuffix(op: Op, rest: Script)
    ensures !Suffix(Then(op, rest), End)
  {
  }

  lemma {:induction false} AfterHeadOccurs(cfg: Config, o: Op)
    requires o in {CheckCommand(Setup), Secrets(Setup), Exec(Setup)}
    ensures Occurs(AfterHead(cfg, Network(Setup)), o) == Occurs(AfterHead(cfg, Plan), o) == cfg.steps
    ensures Occurs(AfterHead(cfg, Write(SetupPlanFile)), o) == Occurs(AfterHead(cfg, Write(EnvironmentFile)), o) == cfg.steps
    ensures Occurs(StepsPlan(cfg.steps), o) == cfg.steps
  {
    hide StepsPlan, Occurs;
    StepsOccur(cfg.steps, o);
    OccursThen(NewExecutor(Setup), StepsPlan(cfg.steps), o);
    OccursThen(Write(EnvironmentFile), AfterHead(cfg, Write(EnvironmentFile)), o);
    OccursThen(Write(SetupPlanFile), AfterHead(cfg, Write(SetupPlanFile)), o);
    OccursThen(Plan, AfterHead(cfg, Plan), o);
  }

  lemma {:induction false} StepsLeft(n: nat, op: Op, rest: Script)
    requires Suffix(Then(op, rest), StepsPlan(n))
    ensures op in {CheckCommand(Setup), Secrets(Setup), Exec(Setup)}
    ensures var c, s, e := Occurs(rest, CheckCommand(Setup)), Occurs(rest, Secrets(Setup)), Occurs(rest, Exec(Setup));
      && (op == CheckCommand(Setup) ==> c + 1 == s == e <= n)
      && (op == Secrets(Setup) ==> c == s == e - 1 < n)
      && (op == Exec(Setup) ==> c == s == e < n)
  {
    hide StepsPlan, Suffix;
    var k := StepsSuffix(n, op, rest);
    StepsOccur(k, CheckCommand(Setup));
    StepsOccur(k, Secrets(Setup));
    StepsOccur(k, Exec(Setup));
  }

  // ---- preparation ----

  lemma {:induction false} FilesOccur(cfg: Config, op: Op)
    ensures Occurs(FilesPlan(cfg), op)
      == Once(op == Write(Context)) + Once(op == Write(Provider)) + Once(op == Write(BackendProfile)) + Once(op == Write(Runtime))
       + Once(op == Write(SandboxFile) && Named(cfg))
       + Once(op == Write(ContainerFile) && cfg.kind.AppleContainer? && Named(cfg))
       + Once(op == Write(MachineFile) && cfg.kind.OrbStackMachine? && (Named(cfg) || cfg.machineName))
  {
    hide Named, Occurs;
    NothingOccurs(op);
    OccursThen(Write(MachineFile), End, op);
    OccursThen(Write(ContainerFile), MachineFilePlan(cfg), op);
    OccursThen(Write(SandboxFile), ContainerFilePlan(cfg), op);
    var runtime := Then(Write(Runtime), SandboxFilePlan(cfg));
    var profile := Then(Write(BackendProfile), runtime);
    OccursThen(Write(Runtime), SandboxFilePlan(cfg), op);
    OccursThen(Write(BackendProfile), runtime, op);
    OccursThen(Write(Provider), profile, op);
    OccursThen(Write(Context), Then(Write(Provider), profile), op);
  }

  lemma {:induction false} SandboxOccur(cfg: Config, op: Op)
    ensures var id := cfg.answers.sandboxId;
      Occurs(SandboxPlan(cfg), op)
      == Once(op == Create) + Once(op == Start(id)) + Once(op == SyncIn(id) && cfg.syncer)
       + Once(op == DevMetadata(Prepare, id) && cfg.devProvider) + Occurs(FilesPlan(cfg), op)
  {
    hide FilesPlan, Occurs;
    var id := cfg.answers.sandboxId;
    OccursThen(DevMetadata(Prepare, id), FilesPlan(cfg), op);
    OccursThen(SyncIn(id), DescribePlan(cfg), op);
    OccursThen(Start(id), FillPlan(cfg), op);
    OccursThen(Create, Then(Start(id), FillPlan(cfg)), op);
  }

  lemma {:induction false} BackendOccur(cfg: Config, op: Op)
    ensures Occurs(BackendPlan(cfg), op)
      == Once(op == NewBackend) + Once(op == Capabilities) + Once(op == RuntimeInfo) + Once(op == RequiredCapabilities)
       + Once(op == KataSupport && cfg.kata)
       + Occurs(if cfg.Managed() then SandboxPlan(cfg) else FilesPlan(cfg), op)
  {
    hide FilesPlan, SandboxPlan, Occurs;
    OccursThen(RequiredCapabilities, if cfg.Managed() then SandboxPlan(cfg) else FilesPlan(cfg), op);
    OccursThen(KataSupport, RequirementsPlan(cfg), op);
    var info := Then(RuntimeInfo, SupportPlan(cfg));
    OccursThen(RuntimeInfo, SupportPlan(cfg), op);
    OccursThen(Capabilities, info, op);
    OccursThen(NewBackend, Then(Capabilities, info), op);
  }

  lemma {:induction false} TelemetryOccur(cfg: Config, op: Op)
    ensures Occurs(TelemetryPlan(cfg), op)
      == Once(op == PathRead) + Once(op == PathWrite) + Once(op == Bootstrap) + Once(op == NewEmitter)
       + Occurs(BackendPlan(cfg), op)
  {
    hide BackendPlan, Occurs;
    var emitter := Then(NewEmitter, BackendPlan(cfg));
    OccursThen(NewEmitter, BackendPlan(cfg), op);
    OccursThen(Bootstrap, emitter, op);
    OccursThen(PathWrite, Then(Bootstrap, emitter), op);
    OccursThen(PathRead, Then(PathWrite, Then(Bootstrap, emitter)), op);
  }

  lemma {:induction false} TargetOccur(cfg: Config, op: Op)
    ensures Occurs(PreparePlan(cfg), op)
      == Once(op == AbsWorkspace) + Once(op == AbsArtifactDir) + Once(op == Compatibility) + Once(op == Probe)
       + Once(op == Features) + Once(op == MkArtifactDir) + Once(op == NewWriter) + Occurs(TelemetryPlan(cfg), op)
  {
    hide TelemetryPlan, Occurs;
    var writer := Then(NewWriter, TelemetryPlan(cfg));
    var dir := Then(MkArtifactDir, writer);
    OccursThen(NewWriter, TelemetryPlan(cfg), op);
    OccursThen(MkArtifactDir, writer, op);
    OccursThen(Features, dir, op);
    OccursThen(Probe, Then(Features, dir), op);
    OccursThen(Compatibility, TargetPlan(cfg), op);
    OccursThen(AbsArtifactDir, Then(Compatibility, TargetPlan(cfg)), op);
    OccursThen(AbsWorkspace, Then(AbsArtifactDir, Then(Compatibility, TargetPlan(cfg))), op);
  }

  /** Every call of a preparation that succeeds is made once: the workspace is uploaded if the backend
      can, files that name the sandbox are written if it has a name. */
  lemma {:induction false} PrepareCounts(cfg: Config, t: Transcript, op: Op)
    requires AsPlanned(cfg, t) && ReachedRank(cfg, t) > 0 && PhaseOf(op) == Prepare
    ensures var id := cfg.answers.sandboxId;
      Count(t, op)
      == Once(op == AbsWorkspace) + Once(op == AbsArtifactDir) + Once(op == Compatibility) + Once(op == Probe)
       + Once(op == Features) + Once(op == MkArtifactDir) + Once(op == NewWriter)
       + Once(op == PathRead) + Once(op == PathWrite) + Once(op == Bootstrap) + Once(op == NewEmitter)
       + Once(op == NewBackend) + Once(op == Capabilities) + Once(op == RuntimeInfo) + Once(op == RequiredCapabilities)
       + Once(op == KataSupport && cfg.kata)
       + Once(op == Create && cfg.Managed()) + Once(op == Start(id) && cfg.Managed())
       + Once(op == SyncIn(id) && cfg.Managed() && cfg.syncer)
       + Once(op == DevMetadata(Prepare, id) && cfg.Managed() && cfg.devProvider)
       + Once(op == Write(Context)) + Once(op == Write(Provider)) + Once(op == Write(BackendProfile)) + Once(op == Write(Runtime))
       + Once(op == Write(SandboxFile) && Named(cfg))
       + Once(op == Write(ContainerFile) && cfg.kind.AppleContainer? && Named(cfg))
       + Once(op == Write(MachineFile) && cfg.kind.OrbStackMachine? && (Named(cfg) || cfg.machineName))
  {
    hide AsPlanned, ReachedRank, Count, Occurs, PhaseOf, Named;
    hide FilesPlan, SandboxPlan, BackendPlan, TelemetryPlan, PreparePlan;
    PlannedCounts(cfg, t, op);
    TargetOccur(cfg, op);
    TelemetryOccur(cfg, op);
    BackendOccur(cfg, op);
    SandboxOccur(cfg, op);
    FilesOccur(cfg, op);
  }

  // ---- collection ----

  lemma {:induction false} CollectedCounts(cfg: Config, t: Transcript, op: Op)
    requires AsPlanned(cfg, t) && PhaseOf(op) == Collect
    ensures Count(t, op) <= Occurs(CollectPlan(cfg, CreatedId(t)), op)
    ensures Fold(cfg, t).writer && !FailedInCollect(Failures(cfg, t)) ==>
      Count(t, op) == Occurs(CollectPlan(cfg, CreatedId(t)), op)
  {
    hide PhaseOf, CollectPlan, CallsOf, ReachedRank, Occurs, Prepended, Count, Fold, Failures, CreatedId, FailedInCollect;
    var plan := CollectPlan(cfg, CreatedId(t));
    NothingOccurs(op);
    CallsOccur(t, op, End);
    if Follows(CallsOf(t, Collect), plan) {
      var rest :| Prepended(CallsOf(t, Collect), rest) == plan;
      CallsOccur(t, op, rest);
    }
  }

  lemma {:induction false} WriteOccur(cfg: Config, op: Op)
    ensures Occurs(WritePlan(cfg), op)
      == Once(op == Write(Replay)) + Once(op == Write(Phases)) + Once(op == Write(Results)) + Once(op == Write(Index))
       + Once(op == Refs) + Once(op == Upload) + Once(op == Write(FinalResults)) + Once(op == Write(FinalIndex))
       + Once(op == UploadSummary && cfg.upload && cfg.answers.uploads)
  {
    hide Occurs;
    NothingOccurs(op);
    var last := if cfg.upload && cfg.answers.uploads then Then(UploadSummary, End) else End;
    var finals := Then(Write(FinalResults), Then(Write(FinalIndex), last));
    OccursThen(UploadSummary, End, op);
    OccursThen(Write(FinalIndex), last, op);
    OccursThen(Write(FinalResults), Then(Write(FinalIndex), last), op);
    OccursThen(Upload, finals, op);
    var refs := Then(Refs, UploadPlan(cfg));
    OccursThen(Refs, UploadPlan(cfg), op);
    OccursThen(Write(Index), refs, op);
    OccursThen(Write(Results), Then(Write(Index), refs), op);
    OccursThen(Write(Phases), Then(Write(Results), Then(Write(Index), refs)), op);
    OccursThen(Write(Replay), SummaryPlan(cfg), op);
  }

  /** The calls on a sandbox whose identifier is `id`, and after a refresh `later`. */
  lemma {:induction false} CollectOccur(cfg: Config, id: string, op: Op)
    ensures var later := Refreshed(cfg, id); var known := cfg.Managed() && id != "";
      Occurs(CollectPlan(cfg, id), op)
      == Once(op == SyncOut(id) && known && cfg.syncer) + Once(op == Metadata(id) && known && cfg.metadataProvider)
       + Once(op == Endpoints(later) && known && cfg.metadataProvider && cfg.kind.OpenSandbox?)
       + Once(op == DevMetadata(Collect, later) && known && cfg.devProvider && later != "")
       + Once(op == CleanupOp(cfg, later) && known && later != "")
       + Occurs(WritePlan(cfg), op)
  {
    hide Occurs, WritePlan, CleanupOp;
    var later := Refreshed(cfg, id);
    OccursThen(CleanupOp(cfg, later), WritePlan(cfg), op);
    OccursThen(DevMetadata(Collect, later), DisposalPlan(cfg, later), op);
    OccursThen(Endpoints(later), ContainerPlan(cfg, later), op);
    OccursThen(Metadata(id), EndpointsPlan(cfg, later), op);
    OccursThen(SyncOut(id), RefreshPlan(cfg, id), op);
  }

  /** A collection that succeeds writes every file once and uploads once, and once more the summary, when
      uploading is configured and went well; it fetches the workspace, refreshes and describes the
      sandbox that is known, and disposes of it. */
  lemma {:induction false} CollectCounts(cfg: Config, t: Transcript, op: Op)
    requires AsPlanned(cfg, t) && PhaseOf(op) == Collect && Fold(cfg, t).writer && !FailedInCollect(Failures(cfg, t))
    ensures var id := CreatedId(t); var later := Refreshed(cfg, id); var known := cfg.Managed() && id != "";
      Count(t, op)
      == Once(op == SyncOut(id) && known && cfg.syncer) + Once(op == Metadata(id) && known && cfg.metadataProvider)
       + Once(op == Endpoints(later) && known && cfg.metadataProvider && cfg.kind.OpenSandbox?)
       + Once(op == DevMetadata(Collect, later) && known && cfg.devProvider && later != "")
       + Once(op == CleanupOp(cfg, later) && known && later != "")
       + Once(op == Write(Replay)) + Once(op == Write(Phases)) + Once(op == Write(Results)) + Once(op == Write(Index))
       + Once(op == Refs) + Once(op == Upload) + Once(op == Write(FinalResults)) + Once(op == Write(FinalIndex))
       + Once(op == UploadSummary && cfg.upload && cfg.answers.uploads)
  {
    hide AsPlanned, CollectPlan, WritePlan, Occurs, Count, Fold, Failures, CreatedId, FailedInCollect, CleanupOp, PhaseOf, Refreshed;
    CollectedCounts(cfg, t, op);
    CollectOccur(cfg, CreatedId(t), op);
    WriteOccur(cfg, op);
  }

  // ---- disposal ----

  /** Which call may dispose of a sandbox, by kind of backend, cleanup mode, and capability. */
  predicate DisposalFits(cfg: Config, op: Op) {
    match cfg.kind
    case OpenSandbox =>
      && (op.Keep? <==> cfg.cleanup.KeepMode? || (cfg.cleanup.PauseElseKeepMode? && !cfg.answers.pauseResume))
      && (op.Pause? <==> cfg.cleanup.PauseMode? || (cfg.cleanup.PauseElseKeepMode? && cfg.answers.pauseResume))
      && (op.Delete? <==> cfg.cleanup.StopMode? || cfg.cleanup.DeleteMode? || cfg.cleanup.OtherMode?)
    case OrbStackMachine => (op.Delete? <==> cfg.cleanup.StopMode? || cfg.cleanup.DeleteMode?) && !op.Pause?
    case _ => (op.Keep? <==> cfg.cleanup.KeepMode?) && !op.Pause?
  }

  lemma {:induction false} CalledIsCounted(t: Transcript, k: nat)
    requires k < |t|
    ensures Count(t, t[k].op) > 0
  {
    if k < |t| - 1 {
      CalledIsCounted(t[..|t| - 1], k);
    }
  }

  lemma {:induction false} CleanupFits(cfg: Config, id: string)
    ensures DisposalFits(cfg, CleanupOp(cfg, id))
  {
  }

  lemma {:induction false} DisposalIsPlanned(cfg: Config, t: Transcript, k: nat)
    requires AsPlanned(cfg, t) && k < |t| && IsCleanup(t[k].op)
    ensures DisposalFits(cfg, t[k].op)
  {
    var op, id := t[k].op, CreatedId(t);
    assert PhaseOf(op) == Collect;
    hide AsPlanned, Count, CollectPlan, WritePlan, Occurs, CreatedId, PhaseOf, Refreshed, Fold, Failures;
    hide FailedInCollect, DisposalFits, CleanupOp;
    CleanupFits(cfg, Refreshed(cfg, id));
    CalledIsCounted(t, k);
    CollectedCounts(cfg, t, op);
    CollectOccur(cfg, id, op);
    WriteOccur(cfg, op);
  }
}
