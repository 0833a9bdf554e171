/** The plan of a run: which calls each phase makes, in which order, as long as none of them fails. */
module EnginePlan {
  import opened Wrappers
  import opened EngineTranscript

  datatype Script = End | Then(op: Op, rest: Script)

  /** `calls`, and then `rest`. */
  function Prepended(calls: seq<Op>, rest: Script): Script {
    if calls == [] then rest else Prepended(calls[..|calls| - 1], Then(calls[|calls| - 1], rest))
  }

  /** Just these calls. */
  function Listed(calls: seq<Op>): Script {
    Prepended(calls, End)
  }

  /** The first calls of the script. */
  ghost predicate Follows(calls: seq<Op>, script: Script) {
    exists rest :: Prepended(calls, rest) == script
  }

  lemma {:induction false} PrependedSnoc(calls: seq<Op>, op: Op, rest: Script)
    ensures Prepended(calls + [op], rest) == Prepended(calls, Then(op, rest))
  {
    assert (calls + [op])[..|calls|] == calls;
  }

  // ---- preparation ----

  function PreparePlan(cfg: Config): Script {
    Then(AbsWorkspace, Then(AbsArtifactDir, Then(Compatibility, TargetPlan(cfg))))
  }

  function TargetPlan(cfg: Config): Script {
    Then(Probe, Then(Features, Then(MkArtifactDir, Then(NewWriter, TelemetryPlan(cfg)))))
  }

  function TelemetryPlan(cfg: Config): Script {
    Then(PathRead, Then(PathWrite, Then(Bootstrap, Then(NewEmitter, BackendPlan(cfg)))))
  }

  function BackendPlan(cfg: Config): Script {
    Then(NewBackend, Then(Capabilities, Then(RuntimeInfo, SupportPlan(cfg))))
  }

  function SupportPlan(cfg: Config): Script {
    if cfg.kata then Then(KataSupport, RequirementsPlan(cfg)) else RequirementsPlan(cfg)
  }

  function RequirementsPlan(cfg: Config): Script {
    Then(RequiredCapabilities, if cfg.Managed() then SandboxPlan(cfg) else FilesPlan(cfg))
  }

  function SandboxPlan(cfg: Config): Script {
    Then(Create, Then(Start(cfg.answers.sandboxId), FillPlan(cfg)))
  }

  function FillPlan(cfg: Config): Script {
    if cfg.syncer then Then(SyncIn(cfg.answers.sandboxId), DescribePlan(cfg)) else DescribePlan(cfg)
  }

  function DescribePlan(cfg: Config): Script {
    if cfg.devProvider then Then(DevMetadata(Prepare, cfg.answers.sandboxId), FilesPlan(cfg)) else FilesPlan(cfg)
  }

  function FilesPlan(cfg: Config): Script {
    Then(Write(Context), Then(Write(Provider), Then(Write(BackendProfile), Then(Write(Runtime), SandboxFilePlan(cfg)))))
  }

  /** The sandbox has a name. */
  predicate Named(cfg: Config) {
    cfg.Managed() && cfg.answers.sandboxId != ""
  }

  function SandboxFilePlan(cfg: Config): Script {
    if Named(cfg) then Then(Write(SandboxFile), ContainerFilePlan(cfg)) else ContainerFilePlan(cfg)
  }

  function ContainerFilePlan(cfg: Config): Script {
    if cfg.kind.AppleContainer? && Named(cfg) then Then(Write(ContainerFile), MachineFilePlan(cfg))
    else MachineFilePlan(cfg)
  }

  function MachineFilePlan(cfg: Config): Script {
    if cfg.kind.OrbStackMachine? && (Named(cfg) || cfg.machineName) then Then(Write(MachineFile), End) else End
  }

  // ---- setup ----

  function SetupPlan(cfg: Config): Script {
    Then(Network(Setup), Then(Plan,
      Then(Write(SetupPlanFile), Then(Write(EnvironmentFile), Then(NewExecutor(Setup), StepsPlan(cfg.steps))))))
  }

  function StepsPlan(n: nat): Script {
    if n == 0 then End
    else Then(CheckCommand(Setup), Then(Secrets(Setup), Then(Exec(Setup), StepsPlan(n - 1))))
  }

  // ---- execution ----

  function ExecutePlan(cfg: Config): Script {
    if cfg.hasCommand then Then(Network(Execute), Then(Secrets(Execute), Then(ResolveAdapter, CommandPlan(cfg))))
    else Then(RequireCommand, End)
  }

  /** The executor that setup has chosen is kept. */
  function CommandPlan(cfg: Config): Script {
    Then(RewriteCommand, Then(CheckCommand(Execute),
      if cfg.setup then Then(Exec(Execute), End) else Then(NewExecutor(Execute), Then(Exec(Execute), End))))
  }

  // ---- verification ----

  function VerifyPlan(cfg: Config): Script {
    Then(Network(Verify), if cfg.hasSmoke then SmokePlan(cfg) else ArtifactsPlan(cfg))
  }

  function SmokePlan(cfg: Config): Script {
    Then(CheckCommand(Verify),
      if cfg.setup || cfg.execute then SmokeRunPlan(cfg) else Then(NewExecutor(Verify), SmokeRunPlan(cfg)))
  }

  function SmokeRunPlan(cfg: Config): Script {
    Then(Secrets(Verify), Then(Exec(Verify), ArtifactsPlan(cfg)))
  }

  function ArtifactsPlan(cfg: Config): Script {
    if cfg.kind.OpenSandbox? && cfg.downloader && Named(cfg) then DownloadsPlan(cfg, cfg.expected)
    else StatsPlan(cfg.expected)
  }

  function DownloadsPlan(cfg: Config, n: nat): Script {
    if n == 0 then StatsPlan(cfg.expected) else Then(Download(cfg.answers.sandboxId), DownloadsPlan(cfg, n - 1))
  }

  function StatsPlan(n: nat): Script {
    if n == 0 then End else Then(Stat, StatsPlan(n - 1))
  }

  // ---- collection ----

  /** `id` is the sandbox that was created, "" if none was. */
  function CollectPlan(cfg: Config, id: string): Script {
    if !cfg.Managed() || id == "" then WritePlan(cfg)
    else if cfg.syncer then Then(SyncOut(id), RefreshPlan(cfg, id))
    else RefreshPlan(cfg, id)
  }

  /** A refresh may change the identifier. */
  function Refreshed(cfg: Config, id: string): string {
    if cfg.metadataProvider && cfg.answers.refreshedId.Some? then cfg.answers.refreshedId.value else id
  }

  function RefreshPlan(cfg: Config, id: string): Script {
    if cfg.metadataProvider then Then(Metadata(id), EndpointsPlan(cfg, Refreshed(cfg, id)))
    else ContainerPlan(cfg, id)
  }

  function EndpointsPlan(cfg: Config, id: string): Script {
    if cfg.kind.OpenSandbox? then Then(Endpoints(id), ContainerPlan(cfg, id)) else ContainerPlan(cfg, id)
  }

  function ContainerPlan(cfg: Config, id: string): Script {
    if cfg.devProvider && id != "" then Then(DevMetadata(Collect, id), DisposalPlan(cfg, id)) else DisposalPlan(cfg, id)
  }

  function DisposalPlan(cfg: Config, id: string): Script {
    if id != "" then Then(CleanupOp(cfg, id), WritePlan(cfg)) else WritePlan(cfg)
  }

  /** How a sandbox is disposed of. */
  function CleanupOp(cfg: Config, id: string): Op {
    match cfg.kind
    case OpenSandbox =>
      if cfg.cleanup.PauseMode? || (cfg.cleanup.PauseElseKeepMode? && cfg.answers.pauseResume) then Pause(id)
      else if cfg.cleanup.KeepMode? || cfg.cleanup.PauseElseKeepMode? then Keep(id)
      else Delete(id)
    case OrbStackMachine => if cfg.cleanup.StopMode? || cfg.cleanup.DeleteMode? then Delete(id) else Keep(id)
    case _ => if cfg.cleanup.KeepMode? then Keep(id) else Delete(id)
  }

  function WritePlan(cfg: Config): Script {
    Then(Write(Replay), SummaryPlan(cfg))
  }

  function SummaryPlan(cfg: Config): Script {
    Then(Write(Phases), Then(Write(Results), Then(Write(Index), Then(Refs, UploadPlan(cfg)))))
  }

  function UploadPlan(cfg: Config): Script {
    Then(Upload, Then(Write(FinalResults), Then(Write(FinalIndex),
      if cfg.upload && cfg.answers.uploads then Then(UploadSummary, End) else End)))
  }

  // ---- the phases ----

  function PlanOf(cfg: Config, id: string, p: Phase): Script {
    match p
    case Prepare => PreparePlan(cfg)
    case Setup => if cfg.setup then SetupPlan(cfg) else End
    case Execute => if cfg.execute then ExecutePlan(cfg) else End
    case Verify => if cfg.verify then VerifyPlan(cfg) else End
    case Collect => CollectPlan(cfg, id)
  }

  /** The main phases before the one of rank `n` have made exactly the calls of their plans, and those
      after it none. */
  predicate Progress(cfg: Config, n: nat, calls: Calls) {
    && (n > 0 ==> Listed(calls.prepare) == PlanOf(cfg, "", Prepare))
    && (n > 1 ==> Listed(calls.setup) == PlanOf(cfg, "", Setup))
    && (n > 2 ==> Listed(calls.execute) == PlanOf(cfg, "", Execute))
    && (n > 3 ==> Listed(calls.verify) == PlanOf(cfg, "", Verify))
    && (n < 1 ==> calls.setup == []) && (n < 2 ==> calls.execute == []) && (n < 3 ==> calls.verify == [])
  }

  /** One more call of a phase, the next of its plan. */
  lemma {:induction false} PlanKept(cfg: Config, s: Summary, step: Step, rest: Script)
    ensures var p, s' := PhaseOf(step.op), Next(cfg, s, step);
      PlanOf(cfg, s.created, p) == Prepended(s.calls.Of(p), Then(step.op, rest))
      ==> PlanOf(cfg, s'.created, p) == Prepended(s'.calls.Of(p), rest)
  {
    hide Prepended, CollectPlan, PreparePlan, SetupPlan, ExecutePlan, VerifyPlan, FailureOf, FailsFatally;
    PrependedSnoc(s.calls.Of(PhaseOf(step.op)), step.op, rest);
  }

  lemma {:induction false} ProgressMade(cfg: Config, id: string, p: Phase, calls: Calls)
    requires p != Collect && Progress(cfg, Rank(p), calls) && Listed(calls.Of(p)) == PlanOf(cfg, id, p)
    ensures Progress(cfg, Rank(p) + 1, calls)
    ensures (p == Prepare ==> calls.setup == []) && (p == Setup ==> calls.execute == []) && (p == Execute ==> calls.verify == [])
  {
    hide Listed, PreparePlan, SetupPlan, ExecutePlan, VerifyPlan;
  }

  /** A phase that is disabled has no calls planned. */
  lemma {:induction false} NothingPlanned(cfg: Config, id: string, p: Phase, calls: Calls)
    requires p != Collect && Progress(cfg, Rank(p), calls) && calls.Of(p) == []
    ensures PlanOf(cfg, id, p) == Prepended(calls.Of(p), PlanOf(cfg, id, p))
    ensures !cfg.Enabled(p) ==> Progress(cfg, Rank(p) + 1, calls)
    ensures (p == Prepare ==> calls.setup == []) && (p == Setup ==> calls.execute == []) && (p == Execute ==> calls.verify == [])
  {
    if !cfg.Enabled(p) {
      ProgressMade(cfg, id, p, calls);
    }
  }
}
