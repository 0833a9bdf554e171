/** Normalisation and validation of the run configuration: two overlapping descriptions, the legacy
    fields and the execution triple, are reconciled, and what is accepted is coherent.

    The enumerations of the configuration are strings; each is modelled by its known values, the
    empty string, and a constructor for every other text.  Paths are left out. */
module RunConfig {
  import opened Wrappers

  datatype Backend =
    | NoBackend | DirectBackend | DockerBackend | K8sBackend | OpenSandboxBackend | DevContainerBackend
    | AppleContainerBackend | MachineBackend | OtherBackend(text: string)

  datatype Provider =
    | NoProvider | Native | OrbStack | KindCluster | Minikube | K3s | MicroK8s | DockerDesktop | Colima | Gke | Eks | Aks
    | OpenSandboxProvider | OtherProvider(text: string)

  /** `Spelled` is any text that is not exactly a known name, such as one in capitals. */
  datatype ExecProfile = NoExecProfile | Default | Kata | GVisor | Firecracker | SpelledExec(text: string)

  datatype Profile =
    | NoProfile | DefaultProfile | NativeProfile | KataProfile | GVisorProfile | FirecrackerProfile
    | AppleContainerProfile | OrbStackDockerProfile | OrbStackK8sProfile | OrbStackMachineProfile | Spelled(text: string)

  datatype Kind =
    | NoKind | Direct | Docker | K8s | OpenSandbox | DevContainer | AppleContainer | OrbStackMachine | MachineAlias
    | OtherKind(text: string)

  datatype RunMode =
    | NoMode | LocalDirect | LocalDocker | LocalDevContainer | LocalAppleContainer | LocalOrbStackMachine | StgLinux
    | LocalOpenSandboxDocker | StgOpenSandboxK8s | OtherMode(text: string)

  datatype DockerProvider = NoDockerProvider | DockerEngine | OrbStackEngine | OtherDockerProvider(text: string)

  datatype K8sProvider =
    | NoK8sProvider | Remote | OrbStackLocal | MinikubeLocal | K3sCluster | MicroK8sCluster | OtherK8sProvider(text: string)

  datatype Execution = Execution(backend: Backend, provider: Provider, profile: ExecProfile)

  datatype DockerConfig = DockerConfig(provider: DockerProvider, binary: string, composeBinary: string, context: string)

  datatype K8sConfig = K8sConfig(provider: K8sProvider, namespace: string, context: string)

  datatype OrbStackConfig = OrbStackConfig(dockerContext: string, kubeContext: string, machineName: string, binary: string)

  datatype Images = Images(run: string, sandbox: string, apple: string)

  /** Required fields that normalisation leaves alone. */
  datatype Basics = Basics(
    serviceName: string, attempt: int, sandboxId: string, workspaceDir: string, artifactDir: string, language: string,
    baseUrl: string, devcontainerCli: string, appleBinary: string)

  datatype Config = Config(
    execution: Execution, kind: Kind, mode: RunMode,
    profile: Profile, className: string, kataEnabled: bool, kataClass: string,
    docker: DockerConfig, k8s: K8sConfig, orbstack: OrbStackConfig, images: Images,
    onKubernetes: bool, appleRoot: string, openSandboxRoot: string, basics: Basics)

  // ---- spelling ----

  /** unicode.ToLower, where it yields an ASCII letter: of A to Z, the dotted capital I, and the
      Kelvin sign.  Other characters are in no name, whatever their case. */
  function LowerChar(c: char): char {
    if 'A' <= c <= 'Z' then c - 'A' + 'a' else if c == '\U{130}' then 'i' else if c == '\U{212A}' then 'k' else c
  }

  function Lower(s: string): string {
    if s == "" then "" else [LowerChar(s[0])] + Lower(s[1..])
  }

  /** unicode.IsSpace */
  predicate IsSpace(c: char) {
    || '\t' <= c <= '\U{0D}' || c == ' ' || c == '\U{85}' || c == '\U{A0}' || c == '\U{1680}'
    || '\U{2000}' <= c <= '\U{200A}' || '\U{2028}' <= c <= '\U{2029}' || c == '\U{202F}'
    || c == '\U{205F}' || c == '\U{3000}'
  }

  function TrimSpace(s: string): string {
    if s != "" && IsSpace(s[0]) then TrimSpace(s[1..])
    else if s != "" && IsSpace(s[|s| - 1]) then TrimSpace(s[..|s| - 1])
    else s
  }

  function Canonical(text: string): string {
    Lower(TrimSpace(text))
  }

  function NormalizeExecProfile(p: ExecProfile): ExecProfile {
    match p
    case SpelledExec(text) =>
      var name := Canonical(text);
      if name == "" then NoExecProfile
      else if name == "default" then Default
      else if name == "kata" then Kata
      else if name == "gvisor" then GVisor
      else if name == "firecracker" || name == "microvm" then Firecracker
      else p
    case _ => p
  }

  function NormalizeProfile(p: Profile): Profile {
    match p
    case Spelled(text) =>
      var name := Canonical(text);
      if name == "" then NoProfile
      else if name == "default" then DefaultProfile
      else if name == "native" then NativeProfile
      else if name == "kata" then KataProfile
      else if name == "gvisor" then GVisorProfile
      else if name == "firecracker" || name == "microvm" then FirecrackerProfile
      else if name == "apple-container" then AppleContainerProfile
      else if name == "orbstack-docker" then OrbStackDockerProfile
      else if name == "orbstack-k8s" then OrbStackK8sProfile
      else if name == "orbstack-machine" then OrbStackMachineProfile
      else p
    case _ => p
  }

  lemma {:induction false} SpellingIsStable(p: ExecProfile, q: Profile)
    ensures NormalizeExecProfile(NormalizeExecProfile(p)) == NormalizeExecProfile(p)
    ensures NormalizeProfile(NormalizeProfile(q)) == NormalizeProfile(q)
  {
    hide Canonical;
  }

  // ---- mappings ----

  function InferKind(mode: RunMode): Kind {
    match mode
    case LocalDocker => Docker
    case LocalDevContainer => DevContainer
    case LocalAppleContainer => AppleContainer
    case LocalOrbStackMachine => OrbStackMachine
    case StgLinux => K8s
    case LocalOpenSandboxDocker => OpenSandbox
    case StgOpenSandboxK8s => OpenSandbox
    case _ => Direct
  }

  function DefaultProvider(b: Backend): Provider {
    match b
    case OpenSandboxBackend => OpenSandboxProvider
    case MachineBackend => OrbStack
    case NoBackend => NoProvider
    case OtherBackend(_) => NoProvider
    case _ => Native
  }

  function LegacyKind(b: Backend): Kind {
    match b
    case DockerBackend => Docker
    case K8sBackend => K8s
    case OpenSandboxBackend => OpenSandbox
    case DevContainerBackend => DevContainer
    case AppleContainerBackend => AppleContainer
    case MachineBackend => OrbStackMachine
    case _ => Direct
  }

  function BackendOfKind(k: Kind): Backend {
    match k
    case Docker => DockerBackend
    case K8s => K8sBackend
    case OpenSandbox => OpenSandboxBackend
    case DevContainer => DevContainerBackend
    case AppleContainer => AppleContainerBackend
    case OrbStackMachine => MachineBackend
    case MachineAlias => MachineBackend
    case _ => DirectBackend
  }

  function ModeFor(b: Backend, onKubernetes: bool, mode: RunMode): RunMode {
    match b
    case DirectBackend => LocalDirect
    case DockerBackend => LocalDocker
    case DevContainerBackend => LocalDevContainer
    case AppleContainerBackend => LocalAppleContainer
    case MachineBackend => LocalOrbStackMachine
    case K8sBackend => StgLinux
    case OpenSandboxBackend => if onKubernetes then StgOpenSandboxK8s else LocalOpenSandboxDocker
    case _ => mode
  }

  function InternalProfile(e: Execution): Profile {
    match e.profile
    case Kata => KataProfile
    case GVisor => GVisorProfile
    case Firecracker => FirecrackerProfile
    case _ =>
      match e.backend
      case AppleContainerBackend => AppleContainerProfile
      case MachineBackend => OrbStackMachineProfile
      case _ => NativeProfile
  }

  function ProviderForK8s(p: K8sProvider): Provider {
    match p
    case OrbStackLocal => OrbStack
    case MinikubeLocal => Minikube
    case K3sCluster => K3s
    case MicroK8sCluster => MicroK8s
    case _ => Native
  }

  function LegacyK8sProvider(p: Provider): K8sProvider {
    match p
    case OrbStack => OrbStackLocal
    case Minikube => MinikubeLocal
    case K3s => K3sCluster
    case MicroK8s => MicroK8sCluster
    case _ => Remote
  }

  function DefaultK8sContext(p: K8sProvider): string {
    match p case OrbStackLocal => "orbstack" case MinikubeLocal => "minikube" case _ => ""
  }

  predicate RequiresRuntimeClass(p: ExecProfile) {
    var q := NormalizeExecProfile(p);
    q.Kata? || q.GVisor? || q.Firecracker?
  }

  // ---- the execution triple from the legacy fields ----

  function LegacyBackend(c: Config): Backend {
    var inferred := InferKind(c.mode);
    var kind := if c.kind.NoKind? then inferred else c.kind;
    BackendOfKind(
      if kind.Direct? && !inferred.Direct? && !c.mode.NoMode? && !c.mode.LocalDirect? then inferred else kind)
  }

  function LegacyProvider(c: Config, b: Backend): Provider {
    match b
    case DockerBackend => if c.docker.provider.OrbStackEngine? then OrbStack else Native
    case K8sBackend => ProviderForK8s(c.k8s.provider)
    case OpenSandboxBackend => OpenSandboxProvider
    case MachineBackend => OrbStack
    case DirectBackend => Native
    case DevContainerBackend => Native
    case AppleContainerBackend => Native
    case _ => NoProvider
  }

  function LegacyExecProfile(c: Config): ExecProfile {
    match c.profile
    case KataProfile => Kata
    case GVisorProfile => GVisor
    case FirecrackerProfile => Firecracker
    case _ => if c.kataEnabled then Kata else Default
  }

  function Derive(c: Config): Execution {
    var backend := LegacyBackend(c);
    var provider := LegacyProvider(c, backend);
    var profile := NormalizeExecProfile(LegacyExecProfile(c));
    Execution(
      backend,
      if provider.NoProvider? then DefaultProvider(backend) else provider,
      if profile.NoExecProfile? then Default else profile)
  }

  // ---- the program's step-by-step normalisation ----

  method NormalizeExecution(c: Config) returns (cfg: Config)
    ensures cfg == ExecutionApplied(c)
  {
    hide Canonical;
    cfg := c;
    if cfg.execution.backend.NoBackend? {
      cfg := cfg.(execution := Derive(cfg));
    } else {
      cfg := cfg.(execution := cfg.execution.(profile := NormalizeExecProfile(cfg.execution.profile)));
      if cfg.execution.provider.NoProvider? {
        cfg := cfg.(execution := cfg.execution.(provider := DefaultProvider(cfg.execution.backend)));
      }
      if cfg.execution.profile.NoExecProfile? {
        cfg := cfg.(execution := cfg.execution.(profile := Default));
      }
    }
    cfg := ApplyExecution(cfg);
  }

  method ApplyExecution(c: Config) returns (cfg: Config)
    ensures cfg == WithExecution(c, FilledIn(c.execution))
  {
    cfg := c;
    var e := cfg.execution;
    if e.provider.NoProvider? {
      e := e.(provider := DefaultProvider(e.backend));
    }
    if e.profile.NoExecProfile? {
      e := e.(profile := Default);
    }
    cfg := cfg.(execution := e, kind := LegacyKind(e.backend));
    if cfg.mode.NoMode? {
      cfg := cfg.(mode := ModeFor(e.backend, cfg.onKubernetes, cfg.mode));
    }
    cfg := cfg.(profile := InternalProfile(e));
    if e.backend.DockerBackend? {
      if e.provider.OrbStack? {
        cfg := cfg.(docker := cfg.docker.(provider := OrbStackEngine));
      } else if cfg.docker.provider.NoDockerProvider? {
        cfg := cfg.(docker := cfg.docker.(provider := DockerEngine));
      }
    } else if e.backend.K8sBackend? {
      cfg := cfg.(k8s := cfg.k8s.(provider := LegacyK8sProvider(e.provider)));
    }
  }

  method NormalizeKind(c: Config) returns (cfg: Config)
    ensures cfg == c.(kind := ReconciledKind(c.kind, c.mode))
  {
    cfg := c;
    var inferred := InferKind(cfg.mode);
    if cfg.kind.NoKind? || (cfg.kind.Direct? && !inferred.Direct?) {
      cfg := cfg.(kind := inferred);
    }
    if cfg.mode.LocalDocker? && cfg.kind.Direct? {
      cfg := cfg.(kind := inferred);
    }
    if cfg.mode.StgLinux? && cfg.kind.Direct? {
      cfg := cfg.(kind := InferKind(cfg.mode));
    }
  }

  method NormalizeInternalProfile(c: Config) returns (cfg: Config)
    ensures cfg == c.(profile := ReconciledProfile(c, c.kind),
                      kataEnabled := c.kataEnabled || ReconciledProfile(c, c.kind).KataProfile?)
  {
    cfg := c;
    if cfg.profile.NoProfile? {
      cfg := cfg.(profile := if cfg.kataEnabled then KataProfile else NativeProfile);
    }
    if cfg.kind.AppleContainer? && cfg.profile.NativeProfile? {
      cfg := cfg.(profile := AppleContainerProfile);
    }
    if cfg.kind.OrbStackMachine? && cfg.profile.NativeProfile? {
      cfg := cfg.(profile := OrbStackMachineProfile);
    }
    if cfg.kind.Docker? && cfg.docker.provider.OrbStackEngine? && cfg.profile.NativeProfile? {
      cfg := cfg.(profile := OrbStackDockerProfile);
    }
    if cfg.kind.K8s? && cfg.k8s.provider.OrbStackLocal? && cfg.profile.NativeProfile? {
      cfg := cfg.(profile := OrbStackK8sProfile);
    }
    if cfg.profile.KataProfile? {
      cfg := cfg.(kataEnabled := true);
    }
  }

  method NormalizeRuntimeClass(c: Config) returns (cfg: Config)
    ensures var name := ClassNameOf(c.className, c.kataClass, c.execution.profile);
      cfg == c.(className := name, kataClass := if name != "" then name else c.kataClass)
  {
    hide NormalizeExecProfile;
    cfg := c;
    if cfg.className == "" && RequiresRuntimeClass(cfg.execution.profile) {
      cfg := cfg.(className := cfg.kataClass);
    }
    if cfg.className != "" {
      cfg := cfg.(kataClass := cfg.className);
    }
  }

  method NormalizeDocker(c: Config) returns (cfg: Config)
    ensures cfg == c.(docker := DockerOf(c.docker, c.orbstack),
                      orbstack := c.orbstack.(dockerContext := DockerContextOf(c.docker.provider, c.orbstack.dockerContext)))
  {
    cfg := c;
    if cfg.docker.provider.NoDockerProvider? {
      cfg := cfg.(docker := cfg.docker.(provider := DockerEngine));
    }
    if cfg.docker.binary == "" {
      cfg := cfg.(docker := cfg.docker.(binary := "docker"));
    }
    if cfg.docker.composeBinary == "" {
      cfg := cfg.(docker := cfg.docker.(composeBinary := "docker"));
    }
    if cfg.docker.provider.OrbStackEngine? {
      if cfg.orbstack.dockerContext == "" {
        cfg := cfg.(orbstack := cfg.orbstack.(dockerContext := "orbstack"));
      }
      if cfg.docker.context == "" || cfg.docker.context == "default" {
        cfg := cfg.(docker := cfg.docker.(context := cfg.orbstack.dockerContext));
      }
    }
  }

  method NormalizeK8s(c: Config) returns (cfg: Config)
    ensures cfg == c.(k8s := K8sOf(c.k8s, c.orbstack),
                      orbstack := c.orbstack.(kubeContext := KubeContextOf(c.k8s.provider, c.orbstack.kubeContext)))
  {
    cfg := c;
    if cfg.k8s.namespace == "" {
      cfg := cfg.(k8s := cfg.k8s.(namespace := NAMESPACE));
    }
    if cfg.k8s.provider.NoK8sProvider? {
      cfg := cfg.(k8s := cfg.k8s.(provider := Remote));
    }
    if cfg.k8s.provider.OrbStackLocal? {
      if cfg.orbstack.kubeContext == "" {
        cfg := cfg.(orbstack := cfg.orbstack.(kubeContext := "orbstack"));
      }
      if cfg.k8s.context == "" {
        cfg := cfg.(k8s := cfg.k8s.(context := cfg.orbstack.kubeContext));
      }
    } else if cfg.k8s.context == "" {
      cfg := cfg.(k8s := cfg.k8s.(context := DefaultK8sContext(cfg.k8s.provider)));
    }
  }

  method NormalizeImages(c: Config) returns (cfg: Config)
    ensures cfg == c.(images := ImagesOf(c.images, c.kind))
  {
    cfg := c;
    if cfg.images.sandbox == "" {
      cfg := cfg.(images := cfg.images.(sandbox := cfg.images.run));
    }
    if cfg.images.run == "" {
      cfg := cfg.(images := cfg.images.(run := cfg.images.sandbox));
    }
    if cfg.kind.AppleContainer? && cfg.images.run == "" {
      cfg := cfg.(images := cfg.images.(run := cfg.images.apple, sandbox := cfg.images.apple));
    }
  }

  method NormalizeRunConfig(c: Config) returns (cfg: Config)
    ensures cfg == Normalized(c)
  {
    hide ExecutionApplied, ReconciledKind, ClassNameOf, DockerOf, ImagesOf, DockerContextOf, KubeContextOf;
    cfg := c.(profile := NormalizeProfile(c.profile));
    cfg := NormalizeExecution(cfg);
    cfg := NormalizeKind(cfg);
    cfg := NormalizeInternalProfile(cfg);
    cfg := NormalizeRuntimeClass(cfg);
    if cfg.appleRoot == "" {
      cfg := cfg.(appleRoot := WORKSPACE);
    }
    cfg := NormalizeDocker(cfg);
    cfg := NormalizeK8s(cfg);
    cfg := NormalizeImages(cfg);
    if cfg.openSandboxRoot == "" {
      cfg := cfg.(openSandboxRoot := WORKSPACE);
    }
  }

  // ---- the same, field by field ----

  const NAMESPACE := "ai-sandbox-runner-runs"
  const WORKSPACE := "/workspace"

  function FilledIn(e: Execution): Execution {
    e.(provider := if e.provider.NoProvider? then DefaultProvider(e.backend) else e.provider,
       profile := if e.profile.NoExecProfile? then Default else e.profile)
  }

  /** The triple is derived only when no backend is given. */
  function Triple(c: Config): Execution {
    if c.execution.backend.NoBackend? then Derive(c)
    else FilledIn(c.execution.(profile := NormalizeExecProfile(c.execution.profile)))
  }

  /** The legacy fields follow the triple. */
  function WithExecution(c: Config, e: Execution): Config {
    c.(execution := e, kind := LegacyKind(e.backend), profile := InternalProfile(e),
       mode := if c.mode.NoMode? then ModeFor(e.backend, c.onKubernetes, NoMode) else c.mode,
       docker := c.docker.(provider :=
         if !e.backend.DockerBackend? then c.docker.provider
         else if e.provider.OrbStack? then OrbStackEngine
         else if c.docker.provider.NoDockerProvider? then DockerEngine
         else c.docker.provider),
       k8s := c.k8s.(provider := if e.backend.K8sBackend? then LegacyK8sProvider(e.provider) else c.k8s.provider))
  }

  function ExecutionApplied(c: Config): Config {
    WithExecution(c, FilledIn(Triple(c)))
  }

  /** A run mode that asks for more than direct execution wins over a direct kind. */
  function ReconciledKind(kind: Kind, mode: RunMode): Kind {
    if kind.NoKind? || kind.Direct? then InferKind(mode) else kind
  }

  function ReconciledProfile(c: Config, kind: Kind): Profile {
    var p := if !c.profile.NoProfile? then c.profile else if c.kataEnabled then KataProfile else NativeProfile;
    if !p.NativeProfile? then p
    else if kind.AppleContainer? then AppleContainerProfile
    else if kind.OrbStackMachine? then OrbStackMachineProfile
    else if kind.Docker? && c.docker.provider.OrbStackEngine? then OrbStackDockerProfile
    else if kind.K8s? && c.k8s.provider.OrbStackLocal? then OrbStackK8sProfile
    else NativeProfile
  }

  function ClassNameOf(className: string, kataClass: string, p: ExecProfile): string {
    if className == "" && RequiresRuntimeClass(p) then kataClass else className
  }

  function OrElse(text: string, other: string): string {
    if text == "" then other else text
  }

  function DockerProviderOf(p: DockerProvider): DockerProvider {
    if p.NoDockerProvider? then DockerEngine else p
  }

  function K8sProviderOf(p: K8sProvider): K8sProvider {
    if p.NoK8sProvider? then Remote else p
  }

  function DockerOf(d: DockerConfig, o: OrbStackConfig): DockerConfig {
    DockerConfig(
      DockerProviderOf(d.provider), OrElse(d.binary, "docker"), OrElse(d.composeBinary, "docker"),
      if d.provider.OrbStackEngine? && (d.context == "" || d.context == "default") then
        DockerContextOf(d.provider, o.dockerContext)
      else d.context)
  }

  function K8sOf(k: K8sConfig, o: OrbStackConfig): K8sConfig {
    K8sConfig(
      K8sProviderOf(k.provider), OrElse(k.namespace, NAMESPACE),
      OrElse(k.context, if k.provider.OrbStackLocal? then KubeContextOf(k.provider, o.kubeContext)
                        else DefaultK8sContext(K8sProviderOf(k.provider))))
  }

  function DockerContextOf(p: DockerProvider, context: string): string {
    if p.OrbStackEngine? then OrElse(context, "orbstack") else context
  }

  function KubeContextOf(p: K8sProvider, context: string): string {
    if p.OrbStackLocal? then OrElse(context, "orbstack") else context
  }

  function ImagesOf(i: Images, kind: Kind): Images {
    var either := OrElse(i.run, i.sandbox);
    if either == "" && kind.AppleContainer? then i.(run := i.apple, sandbox := i.apple)
    else i.(run := either, sandbox := OrElse(i.sandbox, i.run))
  }

  /** The normal form. */
  function Normalized(c: Config): Config {
    var a := ExecutionApplied(c.(profile := NormalizeProfile(c.profile)));
    var kind := ReconciledKind(a.kind, a.mode);
    var profile := ReconciledProfile(a, kind);
    var className := ClassNameOf(a.className, a.kataClass, a.execution.profile);
    Config(
      a.execution, kind, a.mode, profile, className, a.kataEnabled || profile.KataProfile?,
      if className != "" then className else a.kataClass,
      DockerOf(a.docker, a.orbstack), K8sOf(a.k8s, a.orbstack),
      a.orbstack.(dockerContext := DockerContextOf(a.docker.provider, a.orbstack.dockerContext),
                  kubeContext := KubeContextOf(a.k8s.provider, a.orbstack.kubeContext)),
      ImagesOf(a.images, kind), a.onKubernetes, OrElse(a.appleRoot, WORKSPACE), OrElse(a.openSandboxRoot, WORKSPACE),
      a.basics)
  }

  // ---- normalising twice ----

  lemma {:induction false} ExecutionIsStable(c: Config)
    ensures var a := ExecutionApplied(c);
      && FilledIn(Triple(a)) == a.execution && !a.execution.backend.NoBackend? && !a.profile.NoProfile?
      && NormalizeExecProfile(a.execution.profile) == a.execution.profile
      && a.kind == LegacyKind(a.execution.backend) && a.profile == InternalProfile(a.execution)
      && WithExecution(a, a.execution) == a
  {
    SpellingIsStable(c.execution.profile, c.profile);
    hide Canonical;
  }

  lemma {:induction false} ContainersAreStable(d: DockerConfig, k: K8sConfig, o: OrbStackConfig)
    ensures var o1 := o.(dockerContext := DockerContextOf(d.provider, o.dockerContext),
                         kubeContext := KubeContextOf(k.provider, o.kubeContext));
      && DockerOf(DockerOf(d, o), o1) == DockerOf(d, o)
      && K8sOf(K8sOf(k, o), o1) == K8sOf(k, o)
      && DockerContextOf(DockerOf(d, o).provider, o1.dockerContext) == o1.dockerContext
      && KubeContextOf(K8sOf(k, o).provider, o1.kubeContext) == o1.kubeContext
  {
  }

  lemma {:induction false} ImagesAreStable(i: Images, kind: Kind)
    ensures ImagesOf(ImagesOf(i, kind), kind) == ImagesOf(i, kind)
  {
  }

  /** The triple settles the legacy fields, so applying it to the normal form finds them in place. */
  lemma {:induction false} ExecutionOfNormalForm(c: Config)
    ensures var n, a := Normalized(c), ExecutionApplied(c.(profile := NormalizeProfile(c.profile)));
      ExecutionApplied(n.(profile := NormalizeProfile(n.profile))) == n.(kind := a.kind, profile := a.profile)
  {
    var c1 := c.(profile := NormalizeProfile(c.profile));
    ExecutionIsStable(c1);
    hide NormalizeExecProfile, NormalizeProfile, Derive, DockerContextOf, KubeContextOf, ImagesOf, ClassNameOf, OrElse;
  }

  /** Normalising again changes nothing, for every configuration, explicit or legacy, with known or
      unknown values. */
  lemma {:induction false} NormalizationIsIdempotent(c: Config)
    ensures Normalized(Normalized(c)) == Normalized(c)
  {
    var a := ExecutionApplied(c.(profile := NormalizeProfile(c.profile)));
    ExecutionIsStable(c.(profile := NormalizeProfile(c.profile)));
    ExecutionOfNormalForm(c);
    ContainersAreStable(a.docker, a.k8s, a.orbstack);
    ImagesAreStable(a.images, ReconciledKind(a.kind, a.mode));
    hide ExecutionApplied, NormalizeExecProfile, NormalizeProfile, ImagesOf;
  }
}
