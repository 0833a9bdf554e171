/** Validation of a normalised configuration, and what every accepted one satisfies: the legacy
    fields, the run mode and the execution triple agree, and so do the three places that dispatch on
    them. */
module ConfigCoherence {
  import opened Wrappers
  import opened RunConfig
  import opened NormalForm

  datatype Rejection =
    | MissingServiceName | InvalidAttempt | MissingSandboxId | MissingWorkspaceDir | MissingArtifactDir | MissingLanguage
    | MissingBackend | UnsupportedBackend | MissingProvider | UnsupportedProvider | MissingExecProfile
    | UnsupportedExecProfile | MissingMode | UnsupportedMode | MissingImageForDocker | MissingKind | UnsupportedKind
    | MissingProfile | UnsupportedProfile | ModeMismatch | MissingRuntimeClass | AppleContainerHost | MachineHost
    | UnsupportedCombination | MissingBaseUrl | MissingOpenSandboxImage | MissingDevContainerCli
    | MissingAppleBinary | MissingAppleImage | MissingOrbBinary | MissingMachineName
    | UnsupportedDockerProvider | UnsupportedK8sProvider

  /** The platform that is targeted: darwin on arm64, or darwin at all. */
  datatype Host = Host(darwinArm64: bool, darwin: bool)

  // ---- the compatibility table ----

  predicate IsClusterProfile(p: ExecProfile) {
    p.Default? || p.Kata? || p.GVisor? || p.Firecracker?
  }

  /** Some rule of the table matches the triple. */
  predicate Supported(e: Execution) {
    match e.backend
    case DirectBackend => e.provider.Native? && e.profile.Default?
    case DockerBackend =>
      e.profile.Default? && (e.provider.Native? || e.provider.OrbStack? || e.provider.DockerDesktop? || e.provider.Colima?)
    case K8sBackend =>
      (match e.provider
       case Native => IsClusterProfile(e.profile)
       case Minikube => IsClusterProfile(e.profile)
       case K3s => IsClusterProfile(e.profile)
       case MicroK8s => IsClusterProfile(e.profile)
       case Gke => e.profile.Default? || e.profile.Kata? || e.profile.GVisor?
       case Eks => e.profile.Default? || e.profile.Kata?
       case OrbStack => e.profile.Default?
       case KindCluster => e.profile.Default?
       case DockerDesktop => e.profile.Default?
       case Aks => e.profile.Default?
       case _ => false)
    case OpenSandboxBackend => e.provider.OpenSandboxProvider? && IsClusterProfile(e.profile)
    case DevContainerBackend => e.provider.Native? && e.profile.Default?
    case AppleContainerBackend => e.provider.Native? && e.profile.Default?
    case MachineBackend => e.provider.OrbStack? && e.profile.Default?
    case _ => false
  }

  // ---- validation, in the order of the checks ----

  predicate RequiresManagedSandbox(k: Kind) {
    k.OpenSandbox? || k.DevContainer? || k.AppleContainer? || k.OrbStackMachine?
  }

  predicate ModeAgrees(k: Kind, mode: RunMode) {
    match k
    case Direct => mode.LocalDirect?
    case Docker => mode.LocalDocker?
    case DevContainer => mode.LocalDevContainer?
    case K8s => mode.StgLinux?
    case AppleContainer => mode.LocalAppleContainer?
    case OrbStackMachine => mode.LocalOrbStackMachine?
    case OpenSandbox => mode.LocalOpenSandboxDocker? || mode.StgOpenSandboxK8s?
    case _ => true
  }

  predicate HasRuntimeClass(c: Config) {
    TrimSpace(c.className) != "" || (TrimSpace(c.kataClass) != "" && RequiresRuntimeClass(c.execution.profile))
  }

  predicate RuntimeClassMissing(c: Config) {
    && RequiresRuntimeClass(c.execution.profile)
    && (c.execution.backend.K8sBackend? || (c.execution.backend.OpenSandboxBackend? && c.onKubernetes))
    && !HasRuntimeClass(c)
  }

  function ValidateBasics(c: Config): Option<Rejection> {
    var b := c.basics;
    if b.serviceName == "" then Some(MissingServiceName)
    else if b.attempt <= 0 then Some(InvalidAttempt)
    else if b.sandboxId == "" && !RequiresManagedSandbox(c.kind) then Some(MissingSandboxId)
    else if b.workspaceDir == "" then Some(MissingWorkspaceDir)
    else if b.artifactDir == "" then Some(MissingArtifactDir)
    else if b.language == "" then Some(MissingLanguage)
    else None
  }

  function ValidateNames(c: Config): Option<Rejection> {
    if c.execution.backend.NoBackend? then Some(MissingBackend)
    else if c.execution.backend.OtherBackend? then Some(UnsupportedBackend)
    else if c.execution.provider.NoProvider? then Some(MissingProvider)
    else if c.execution.provider.OtherProvider? then Some(UnsupportedProvider)
    else if c.execution.profile.NoExecProfile? then Some(MissingExecProfile)
    else if c.execution.profile.SpelledExec? then Some(UnsupportedExecProfile)
    else if c.mode.NoMode? then Some(MissingMode)
    else if c.mode.OtherMode? then Some(UnsupportedMode)
    else if c.mode.LocalDocker? && c.images.run == "" then Some(MissingImageForDocker)
    else if c.kind.NoKind? then Some(MissingKind)
    else if c.kind.MachineAlias? || c.kind.OtherKind? then Some(UnsupportedKind)
    else if c.profile.NoProfile? then Some(MissingProfile)
    else if c.profile.Spelled? then Some(UnsupportedProfile)
    else None
  }

  function ValidateRuntime(c: Config, host: Host): Option<Rejection> {
    if !ModeAgrees(c.kind, c.mode) then Some(ModeMismatch)
    else if RuntimeClassMissing(c) then Some(MissingRuntimeClass)
    else if c.execution.backend.AppleContainerBackend? && !host.darwinArm64 then Some(AppleContainerHost)
    else if c.execution.backend.MachineBackend? && !host.darwin then Some(MachineHost)
    else if !Supported(c.execution) then Some(UnsupportedCombination)
    else None
  }

  function ValidateBackend(c: Config): Option<Rejection> {
    match c.kind
    case OpenSandbox =>
      if c.basics.baseUrl == "" then Some(MissingBaseUrl)
      else if c.images.sandbox == "" && c.images.run == "" then Some(MissingOpenSandboxImage) else None
    case DevContainer => if c.basics.devcontainerCli == "" then Some(MissingDevContainerCli) else None
    case AppleContainer =>
      if c.basics.appleBinary == "" then Some(MissingAppleBinary)
      else if c.images.run == "" && c.images.apple == "" then Some(MissingAppleImage) else None
    case OrbStackMachine =>
      if c.orbstack.binary == "" then Some(MissingOrbBinary)
      else if c.orbstack.machineName == "" then Some(MissingMachineName) else None
    case Docker =>
      if c.docker.provider.DockerEngine? || c.docker.provider.OrbStackEngine? then None else Some(UnsupportedDockerProvider)
    case K8s =>
      if c.k8s.provider.NoK8sProvider? || c.k8s.provider.OtherK8sProvider? then Some(UnsupportedK8sProvider) else None
    case _ => None
  }

  /** The copy that validation looks at: the execution triple is applied to it once more. */
  function Examined(c: Config): Config {
    var a := ExecutionApplied(c);
    a.(execution := a.execution.(profile := NormalizeExecProfile(a.execution.profile)), profile := NormalizeProfile(a.profile))
  }

  function ValidateRunConfig(c: Config, host: Host): Option<Rejection> {
    var v := Examined(c);
    if ValidateBasics(v).Some? then ValidateBasics(v)
    else if ValidateNames(v).Some? then ValidateNames(v)
    else if ValidateRuntime(v, host).Some? then ValidateRuntime(v, host)
    else ValidateBackend(v)
  }

  // ---- the three dispatches ----

  datatype Implementation = Local(kind: Kind) | DevContainerCli | AppleContainerCli | OrbStackCli | OpenSandboxApi

  datatype Executor = BackendExecutor | DockerExecutor | DirectExecutor

  function NewBackend(e: Execution): Option<Implementation> {
    match e.backend
    case DirectBackend => Some(Local(Direct))
    case DockerBackend => Some(Local(Docker))
    case DevContainerBackend => Some(DevContainerCli)
    case AppleContainerBackend => Some(AppleContainerCli)
    case MachineBackend => Some(OrbStackCli)
    case K8sBackend => Some(Local(K8s))
    case OpenSandboxBackend => Some(OpenSandboxApi)
    case _ => None
  }

  function NewExecutor(k: Kind, mode: RunMode): Executor {
    if RequiresManagedSandbox(k) then BackendExecutor else if mode.LocalDocker? then DockerExecutor else DirectExecutor
  }

  // ---- coherence ----

  /** Kind, run mode and triple describe the same backend, and the table knows the triple. */
  predicate Coherent(c: Config) {
    c.kind == LegacyKind(c.execution.backend) && ModeAgrees(c.kind, c.mode) && Supported(c.execution)
  }

  /** The backend factory, the choice of the executor and the test for a managed sandbox agree; so a
      local backend, whose Exec is unsupported, is never run through a backend executor. */
  predicate DispatchesAgree(c: Config) {
    var backend, executor := NewBackend(c.execution), NewExecutor(c.kind, c.mode);
    && backend.Some?
    && (backend.value.Local? ==> backend.value.kind == c.kind)
    && (backend.value.DevContainerCli? <==> c.kind.DevContainer?)
    && (backend.value.AppleContainerCli? <==> c.kind.AppleContainer?)
    && (backend.value.OrbStackCli? <==> c.kind.OrbStackMachine?)
    && (backend.value.OpenSandboxApi? <==> c.kind.OpenSandbox?)
    && (executor.BackendExecutor? <==> !backend.value.Local?)
    && (executor.BackendExecutor? <==> RequiresManagedSandbox(c.kind))
    && (executor.DockerExecutor? <==> backend.value == Local(Docker))
  }

  /** The required fields of the backend that is used are there, and the host can run it. */
  predicate Complete(c: Config, host: Host) {
    var b := c.basics;
    && b.serviceName != "" && b.attempt > 0 && b.workspaceDir != "" && b.artifactDir != "" && b.language != ""
    // only a backend that creates its sandbox does without an identifier
    && (b.sandboxId != "" || c.kind in {OpenSandbox, DevContainer, AppleContainer, OrbStackMachine})
    && (c.mode.LocalDocker? ==> c.images.run != "")
    && (match c.kind
        case OpenSandbox => b.baseUrl != "" && (c.images.sandbox != "" || c.images.run != "")
        case DevContainer => b.devcontainerCli != ""
        case AppleContainer => b.appleBinary != "" && (c.images.run != "" || c.images.apple != "")
        case OrbStackMachine => c.orbstack.binary != "" && c.orbstack.machineName != ""
        case Docker => c.docker.provider in {DockerEngine, OrbStackEngine}
        case K8s => c.k8s.provider in {Remote, OrbStackLocal, MinikubeLocal, K3sCluster, MicroK8sCluster}
        case _ => true)
    && (NeedsRuntimeClass(c) ==> !Blank(c.className) || !Blank(c.kataClass))
    && (c.execution.backend.AppleContainerBackend? ==> host.darwinArm64)
    && (c.execution.backend.MachineBackend? ==> host.darwin)
  }

  predicate Blank(text: string) {
    forall k :: 0 <= k < |text| ==> IsSpace(text[k])
  }

  /** A sandboxed runtime on a cluster. */
  predicate NeedsRuntimeClass(c: Config) {
    && NormalizeExecProfile(c.execution.profile) in {Kata, GVisor, Firecracker}
    && (c.execution.backend.K8sBackend? || (c.execution.backend.OpenSandboxBackend? && c.onKubernetes))
  }

  lemma {:induction false} BlankIffTrimmed(text: string)
    ensures Blank(text) <==> TrimSpace(text) == ""
  {
    hide IsSpace;
    var i, j := TrimSpaceMeans(text);
    assert i < j ==> text[i] == text[i..j][0];
  }

  lemma {:induction false} CompleteIffValid(c: Config, host: Host)
    ensures Complete(c, host) <==>
      && ValidateBasics(c).None? && ValidateBackend(c).None? && !RuntimeClassMissing(c)
      && (c.mode.LocalDocker? ==> c.images.run != "")
      && (c.execution.backend.AppleContainerBackend? ==> host.darwinArm64)
      && (c.execution.backend.MachineBackend? ==> host.darwin)
  {
    hide Blank, TrimSpace, NormalizeExecProfile;
    BlankIffTrimmed(c.className);
    BlankIffTrimmed(c.kataClass);
  }

  /** The compatibility table by profile: where each is supported. */
  lemma {:induction false} SupportedProfiles(e: Execution)
    ensures Supported(e) ==> e.profile in {Default, Kata, GVisor, Firecracker}
    ensures Supported(e) && !e.profile.Default? ==> e.backend in {K8sBackend, OpenSandboxBackend}
    ensures e.backend.OpenSandboxBackend? ==>
      (Supported(e) <==> e.provider.OpenSandboxProvider? && e.profile in {Default, Kata, GVisor, Firecracker})
    ensures e.backend.K8sBackend? ==>
      && (e.profile.Default? ==>
            (Supported(e) <==> e.provider in {Native, OrbStack, KindCluster, Minikube, K3s, MicroK8s, DockerDesktop, Gke, Eks, Aks}))
      && (e.profile.Kata? ==> (Supported(e) <==> e.provider in {Native, Minikube, K3s, MicroK8s, Gke, Eks}))
      && (e.profile.GVisor? ==> (Supported(e) <==> e.provider in {Native, Minikube, K3s, MicroK8s, Gke}))
      && (e.profile.Firecracker? ==> (Supported(e) <==> e.provider in {Native, Minikube, K3s, MicroK8s}))
    ensures e.profile.Default? ==>
      && (e.backend in {DirectBackend, DevContainerBackend, AppleContainerBackend} ==> (Supported(e) <==> e.provider.Native?))
      && (e.backend.DockerBackend? ==> (Supported(e) <==> e.provider in {Native, OrbStack, DockerDesktop, Colima}))
      && (e.backend.MachineBackend? ==> (Supported(e) <==> e.provider.OrbStack?))
    ensures Supported(e) ==> !e.backend.NoBackend? && !e.backend.OtherBackend?
  {
  }

  /** A kind agrees with a run mode exactly when the run mode asks for it. */
  lemma {:induction false} AgreesIffInferred(k: Kind, mode: RunMode)
    requires k in {Direct, Docker, K8s, OpenSandbox, DevContainer, AppleContainer, OrbStackMachine}
    ensures ModeAgrees(k, mode) <==> !mode.NoMode? && !mode.OtherMode? && InferKind(mode) == k
  {
  }

  /** What a rejection tells of the configuration that was examined. */
  predicate Holds(r: Rejection, v: Config, host: Host) {
    var b, e := v.basics, v.execution;
    match r
    case MissingServiceName => b.serviceName == ""
    case InvalidAttempt => b.attempt <= 0
    case MissingSandboxId => b.sandboxId == "" && v.kind !in {OpenSandbox, DevContainer, AppleContainer, OrbStackMachine}
    case MissingWorkspaceDir => b.workspaceDir == ""
    case MissingArtifactDir => b.artifactDir == ""
    case MissingLanguage => b.language == ""
    case MissingBackend => e.backend.NoBackend?
    case UnsupportedBackend => e.backend.OtherBackend?
    case MissingProvider => e.provider.NoProvider?
    case UnsupportedProvider => e.provider.OtherProvider?
    case MissingExecProfile => e.profile.NoExecProfile?
    case UnsupportedExecProfile => e.profile.SpelledExec?
    case MissingMode => v.mode.NoMode?
    case UnsupportedMode => v.mode.OtherMode?
    case MissingImageForDocker => v.mode.LocalDocker? && v.images.run == ""
    case MissingKind => v.kind.NoKind?
    case UnsupportedKind => v.kind.MachineAlias? || v.kind.OtherKind?
    case MissingProfile => v.profile.NoProfile?
    case UnsupportedProfile => v.profile.Spelled?
    case ModeMismatch => !ModeAgrees(v.kind, v.mode)
    case MissingRuntimeClass => NeedsRuntimeClass(v) && Blank(v.className) && Blank(v.kataClass)
    case AppleContainerHost => e.backend.AppleContainerBackend? && !host.darwinArm64
    case MachineHost => e.backend.MachineBackend? && !host.darwin
    case UnsupportedCombination => !Supported(e)
    case MissingBaseUrl => v.kind.OpenSandbox? && b.baseUrl == ""
    case MissingOpenSandboxImage => v.kind.OpenSandbox? && v.images.run == v.images.sandbox == ""
    case MissingDevContainerCli => v.kind.DevContainer? && b.devcontainerCli == ""
    case MissingAppleBinary => v.kind.AppleContainer? && b.appleBinary == ""
    case MissingAppleImage => v.kind.AppleContainer? && v.images.run == v.images.apple == ""
    case MissingOrbBinary => v.kind.OrbStackMachine? && v.orbstack.binary == ""
    case MissingMachineName => v.kind.OrbStackMachine? && v.orbstack.machineName == ""
    case UnsupportedDockerProvider => v.kind.Docker? && v.docker.provider !in {DockerEngine, OrbStackEngine}
    case UnsupportedK8sProvider => v.kind.K8s? && (v.k8s.provider.NoK8sProvider? || v.k8s.provider.OtherK8sProvider?)
  }

  lemma {:induction false} EarlyRejectionIsTrue(v: Config, host: Host)
    ensures ValidateBasics(v).Some? ==> Holds(ValidateBasics(v).value, v, host)
    ensures ValidateNames(v).Some? ==> Holds(ValidateNames(v).value, v, host)
  {
    hide Blank, NormalizeExecProfile;
  }

  lemma {:induction false} RuntimeRejectionIsTrue(v: Config, host: Host)
    ensures ValidateRuntime(v, host).Some? ==> Holds(ValidateRuntime(v, host).value, v, host)
  {
    hide Blank, TrimSpace, NormalizeExecProfile, Supported, ModeAgrees;
    BlankIffTrimmed(v.className);
    BlankIffTrimmed(v.kataClass);
  }

  lemma {:induction false} BackendRejectionIsTrue(v: Config, host: Host)
    ensures ValidateBackend(v).Some? ==> Holds(ValidateBackend(v).value, v, host)
  {
    hide Blank, NormalizeExecProfile, Supported, ModeAgrees;
  }

  lemma {:induction false} RejectionIsTrue(c: Config, host: Host)
    ensures var r := ValidateRunConfig(c, host); r.Some? ==> Holds(r.value, Examined(c), host)
  {
    hide Examined, Holds, ValidateBasics, ValidateNames, ValidateRuntime, ValidateBackend;
    EarlyRejectionIsTrue(Examined(c), host);
    RuntimeRejectionIsTrue(Examined(c), host);
    BackendRejectionIsTrue(Examined(c), host);
  }

  lemma {:induction false} CoherentDispatches(c: Config)
    requires Coherent(c)
    ensures DispatchesAgree(c)
  {
  }

  /** The factory knows every backend that has a name. */
  lemma {:induction false} BackendIsKnown(e: Execution)
    ensures NewBackend(e).None? <==> e.backend.NoBackend? || e.backend.OtherBackend?
  {
  }

  /** What validation examines of a normal form. */
  lemma {:induction false} ExaminedNormalForm(c: Config)
    ensures var n := Normalized(c);
      Examined(n) == n.(kind := LegacyKind(n.execution.backend), profile := InternalProfile(n.execution))
  {
    ExecutionOfNormalForm(c);
    ExecutionIsStable(c.(profile := NormalizeProfile(c.profile)));
    ExecutionIgnoresProfile(Normalized(c));
    hide ExecutionApplied, NormalizeExecProfile, ReconciledProfile, DockerOf, K8sOf, ImagesOf, ClassNameOf;
  }

  /** Once a triple is given the runtime profile is not read. */
  lemma {:induction false} ExecutionIgnoresProfile(c: Config)
    ensures !c.execution.backend.NoBackend? ==>
      ExecutionApplied(c.(profile := NormalizeProfile(c.profile))) == ExecutionApplied(c)
  {
    hide NormalizeExecProfile, NormalizeProfile;
  }

  /** A direct kind can give way to the run mode; an accepted configuration has no such disagreement. */
  lemma {:induction false} KindOfNormalForm(c: Config)
    ensures var n := Normalized(c);
      && n.kind == ReconciledKind(LegacyKind(n.execution.backend), n.mode)
      && (ModeAgrees(LegacyKind(n.execution.backend), n.mode) ==> n.kind == LegacyKind(n.execution.backend))
  {
    ExecutionIsStable(c.(profile := NormalizeProfile(c.profile)));
    hide ExecutionApplied, NormalizeExecProfile, NormalizeProfile, ReconciledProfile, DockerOf, K8sOf, ImagesOf, ClassNameOf;
  }

  /** A loaded configuration is accepted exactly when it is coherent and complete. */
  lemma {:induction false} AcceptedIffCoherent(c: Config, host: Host)
    ensures ValidateRunConfig(Normalized(c), host).None? <==> Coherent(Normalized(c)) && Complete(Normalized(c), host)
  {
    hide Normalized, Examined, NormalizeExecProfile, NormalizeProfile, RuntimeClassMissing, Complete;
    var n := Normalized(c);
    ExaminedNormalForm(c);
    KindOfNormalForm(c);
    CompleteIffValid(n, host);
    SameRuntimeClass(n, Examined(n));
  }

  lemma {:induction false} SameRuntimeClass(n: Config, v: Config)
    requires v == n.(kind := v.kind, profile := v.profile)
    ensures RuntimeClassMissing(v) <==> RuntimeClassMissing(n)
  {
    hide TrimSpace, NormalizeExecProfile;
  }

  /** Loading: normalise, then validate.  The engine's own normalisation then changes nothing. */
  method LoadRunConfig(c: Config, host: Host) returns (cfg: Config, rejected: Option<Rejection>)
    ensures cfg == Normalized(c) && rejected == ValidateRunConfig(cfg, host)
    ensures rejected.None? <==> Coherent(cfg) && Complete(cfg, host)
    ensures rejected.None? ==> DispatchesAgree(cfg) && Normalized(cfg) == cfg
  {
    hide Normalized, ValidateRunConfig, Coherent, Complete, DispatchesAgree;
    cfg := NormalizeRunConfig(c);
    rejected := ValidateRunConfig(cfg, host);
    AcceptedIffCoherent(c, host);
    NormalizationIsIdempotent(c);
    if rejected.None? {
      CoherentDispatches(cfg);
    }
  }

  /** The docker command sets run mode and kind after loading; the engine then normalises again.
      The result is coherent exactly when the configuration was for docker in the first place. */
  lemma {:induction false} DockerCommandCoherence(c: Config, host: Host)
    requires ValidateRunConfig(Normalized(c), host).None?
    ensures var edited := Normalized(c).(mode := LocalDocker, kind := Docker);
      Coherent(Normalized(edited)) <==> Normalized(c).execution.backend.DockerBackend?
  {
    var n := Normalized(c);
    AcceptedIffCoherent(c, host);
    ExecutionOfNormalForm(c);
    ExecutionIsStable(c.(profile := NormalizeProfile(c.profile)));
    var edited := n.(mode := LocalDocker, kind := Docker);
    assert Triple(edited) == Triple(n);
    KindOfNormalForm(edited);
    hide NormalizeExecProfile, NormalizeProfile, ReconciledProfile, DockerOf, K8sOf, ImagesOf, ClassNameOf, Complete;
  }
}
