/** The normal form of a configuration in terms of what it was given: which of its fields are kept, and
    what becomes of those that are missing, unknown, or in disagreement. */
module NormalForm {
  import opened Wrappers
  import opened RunConfig

  // ---- legacy configurations: no execution backend is given ----

  /** A known kind is kept; a missing or direct one, and one that is unknown, becomes the one that the
      run mode asks for. */
  lemma {:induction false} LegacyKindIsKept(c: Config)
    requires c.execution.backend.NoBackend?
    ensures Normalized(c).kind
      == match c.kind
         case Docker => Docker
         case K8s => K8s
         case OpenSandbox => OpenSandbox
         case DevContainer => DevContainer
         case AppleContainer => AppleContainer
         case OrbStackMachine => OrbStackMachine
         case MachineAlias => OrbStackMachine
         case _ =>
           match c.mode
           case LocalDocker => Docker
           case LocalDevContainer => DevContainer
           case LocalAppleContainer => AppleContainer
           case LocalOrbStackMachine => OrbStackMachine
           case StgLinux => K8s
           case LocalOpenSandboxDocker => OpenSandbox
           case StgOpenSandboxK8s => OpenSandbox
           case _ => Direct
  {
    hide Canonical, NormalizeProfile, DockerOf, K8sOf, ImagesOf, ClassNameOf, ReconciledProfile, LegacyProvider, LegacyExecProfile;
    hide DockerContextOf, KubeContextOf, NormalizeExecProfile;
  }

  /** The triple names the backend of that kind; an unknown kind is executed directly. */
  lemma {:induction false} LegacyBackendFollows(c: Config)
    requires c.execution.backend.NoBackend?
    ensures var n := Normalized(c);
      n.execution.backend
      == if c.kind.OtherKind? then DirectBackend
         else match n.kind
              case Docker => DockerBackend
              case K8s => K8sBackend
              case OpenSandbox => OpenSandboxBackend
              case DevContainer => DevContainerBackend
              case AppleContainer => AppleContainerBackend
              case OrbStackMachine => MachineBackend
              case _ => DirectBackend
  {
    LegacyKindIsKept(c);
    hide Canonical, NormalizeProfile, DockerOf, K8sOf, ImagesOf, ClassNameOf, ReconciledProfile, LegacyProvider, LegacyExecProfile;
    hide DockerContextOf, KubeContextOf, NormalizeExecProfile, ReconciledKind;
  }

  /** A run mode is kept; a missing one becomes the one of the backend. */
  lemma {:induction false} LegacyModeIsKept(c: Config)
    requires c.execution.backend.NoBackend?
    ensures var n := Normalized(c);
      n.mode
      == if !c.mode.NoMode? then c.mode
         else match n.execution.backend
              case DockerBackend => LocalDocker
              case K8sBackend => StgLinux
              case OpenSandboxBackend => if c.onKubernetes then StgOpenSandboxK8s else LocalOpenSandboxDocker
              case DevContainerBackend => LocalDevContainer
              case AppleContainerBackend => LocalAppleContainer
              case MachineBackend => LocalOrbStackMachine
              case _ => LocalDirect
  {
    LegacyBackendFollows(c);
    hide Canonical, NormalizeProfile, DockerOf, K8sOf, ImagesOf, ClassNameOf, ReconciledProfile, LegacyProvider, LegacyExecProfile;
    hide DockerContextOf, KubeContextOf, NormalizeExecProfile, ReconciledKind;
  }

  /** For a cluster the provider is kept, a missing or unknown one becoming remote; the triple names it;
      a missing context becomes the one that belongs to it. */
  lemma {:induction false} LegacyClusterIsKept(c: Config)
    requires c.execution.backend.NoBackend? && Normalized(c).execution.backend.K8sBackend?
    ensures var n := Normalized(c);
      && n.k8s.provider == (match c.k8s.provider
                            case OrbStackLocal => OrbStackLocal
                            case MinikubeLocal => MinikubeLocal
                            case K3sCluster => K3sCluster
                            case MicroK8sCluster => MicroK8sCluster
                            case _ => Remote)
      && n.execution.provider == (match c.k8s.provider
                                  case OrbStackLocal => OrbStack
                                  case MinikubeLocal => Minikube
                                  case K3sCluster => K3s
                                  case MicroK8sCluster => MicroK8s
                                  case _ => Native)
      && n.k8s.context == (if c.k8s.context != "" then c.k8s.context
                           else match c.k8s.provider
                                case OrbStackLocal => if c.orbstack.kubeContext != "" then c.orbstack.kubeContext else "orbstack"
                                case MinikubeLocal => "minikube"
                                case _ => "")
      && n.k8s.namespace == (if c.k8s.namespace != "" then c.k8s.namespace else "ai-sandbox-runner-runs")
  {
    hide Canonical, NormalizeProfile, DockerOf, ImagesOf, ClassNameOf, ReconciledProfile, LegacyBackend, LegacyExecProfile;
    hide DockerContextOf, NormalizeExecProfile, ReconciledKind, InternalProfile, ModeFor, LegacyKind;
  }

  /** For docker the provider is kept, a missing one becoming the plain engine; OrbStack brings its own
      context, unless another than the default one is given. */
  lemma {:induction false} LegacyDockerIsKept(c: Config)
    requires c.execution.backend.NoBackend? && Normalized(c).execution.backend.DockerBackend?
    ensures var n := Normalized(c);
      && n.docker.provider == (if c.docker.provider.NoDockerProvider? then DockerEngine else c.docker.provider)
      && n.execution.provider == (if c.docker.provider.OrbStackEngine? then OrbStack else Native)
      && n.docker.context
         == (if c.docker.provider.OrbStackEngine? && c.docker.context in {"", "default"} then
               if c.orbstack.dockerContext != "" then c.orbstack.dockerContext else "orbstack"
             else c.docker.context)
      && n.docker.binary == (if c.docker.binary != "" then c.docker.binary else "docker")
      && n.docker.composeBinary == (if c.docker.composeBinary != "" then c.docker.composeBinary else "docker")
  {
    hide Canonical, NormalizeProfile, K8sOf, ImagesOf, ClassNameOf, ReconciledProfile, LegacyBackend, LegacyExecProfile;
    hide KubeContextOf, NormalizeExecProfile, ReconciledKind, InternalProfile, ModeFor, LegacyKind;
  }

  /** The other backends have one provider each. */
  lemma {:induction false} LegacyProviderIsTheOne(c: Config)
    requires c.execution.backend.NoBackend?
    ensures match Normalized(c).execution.backend
      case DirectBackend => Normalized(c).execution.provider == Native
      case DevContainerBackend => Normalized(c).execution.provider == Native
      case AppleContainerBackend => Normalized(c).execution.provider == Native
      case OpenSandboxBackend => Normalized(c).execution.provider == OpenSandboxProvider
      case MachineBackend => Normalized(c).execution.provider == OrbStack
      case _ => true
  {
    hide Canonical, NormalizeProfile, K8sOf, ImagesOf, ClassNameOf, ReconciledProfile, LegacyBackend, LegacyExecProfile, DockerOf;
    hide KubeContextOf, NormalizeExecProfile, ReconciledKind, InternalProfile, ModeFor, LegacyKind, DockerContextOf;
  }

  /** Kata, gVisor and Firecracker profiles are kept, and an enabled Kata flag counts as the Kata profile;
      any other profile becomes the default one. */
  lemma {:induction false} LegacyProfileIsKept(c: Config)
    requires c.execution.backend.NoBackend?
    ensures Normalized(c).execution.profile
      == match NormalizeProfile(c.profile)
         case KataProfile => Kata
         case GVisorProfile => GVisor
         case FirecrackerProfile => Firecracker
         case _ => if c.kataEnabled then Kata else Default
  {
    hide Canonical, NormalizeProfile, K8sOf, ImagesOf, ClassNameOf, ReconciledProfile, LegacyBackend, LegacyProvider, DockerOf;
    hide KubeContextOf, ReconciledKind, InternalProfile, ModeFor, LegacyKind, DockerContextOf;
  }

  // ---- explicit configurations: a backend is given ----

  /** The triple is kept, but for the spelling of its profile and for what is missing; kind, mode and the
      provider of the container engine follow it. */
  lemma {:induction false} ExplicitTripleIsKept(c: Config)
    requires !c.execution.backend.NoBackend?
    ensures var n, e := Normalized(c), c.execution;
      && n.execution.backend == e.backend
      && n.execution.provider
         == (if !e.provider.NoProvider? then e.provider
             else match e.backend
                  case OpenSandboxBackend => OpenSandboxProvider
                  case MachineBackend => OrbStack
                  case OtherBackend(_) => NoProvider
                  case _ => Native)
      && n.execution.profile
         == (if NormalizeExecProfile(e.profile).NoExecProfile? then Default else NormalizeExecProfile(e.profile))
  {
    hide Canonical, NormalizeProfile, NormalizeExecProfile, K8sOf, ImagesOf, ClassNameOf, ReconciledProfile, DockerOf;
    hide KubeContextOf, ReconciledKind, InternalProfile, ModeFor, LegacyKind, DockerContextOf;
  }

  lemma {:induction false} ExplicitKindFollows(c: Config)
    requires !c.execution.backend.NoBackend?
    ensures var n := Normalized(c);
      match c.execution.backend
      case DockerBackend =>
        && n.kind == Docker
        && n.docker.provider == (if n.execution.provider.OrbStack? then OrbStackEngine
                                 else if c.docker.provider.NoDockerProvider? then DockerEngine else c.docker.provider)
      case K8sBackend =>
        && n.kind == K8s
        && n.k8s.provider == (match n.execution.provider
                              case OrbStack => OrbStackLocal
                              case Minikube => MinikubeLocal
                              case K3s => K3sCluster
                              case MicroK8s => MicroK8sCluster
                              case _ => Remote)
      case OpenSandboxBackend => n.kind == OpenSandbox
      case DevContainerBackend => n.kind == DevContainer
      case AppleContainerBackend => n.kind == AppleContainer
      case MachineBackend => n.kind == OrbStackMachine
      case _ => true
  {
    hide Canonical, NormalizeProfile, NormalizeExecProfile, ImagesOf, ClassNameOf, ReconciledProfile;
    hide KubeContextOf, InternalProfile, ModeFor, DockerContextOf;
  }

  /** A run mode is kept here too; a missing one becomes the one of the backend, if that is known. */
  lemma {:induction false} ExplicitModeIsKept(c: Config)
    requires !c.execution.backend.NoBackend?
    ensures Normalized(c).mode
      == if !c.mode.NoMode? then c.mode
         else match c.execution.backend
              case DirectBackend => LocalDirect
              case DockerBackend => LocalDocker
              case K8sBackend => StgLinux
              case OpenSandboxBackend => if c.onKubernetes then StgOpenSandboxK8s else LocalOpenSandboxDocker
              case DevContainerBackend => LocalDevContainer
              case AppleContainerBackend => LocalAppleContainer
              case MachineBackend => LocalOrbStackMachine
              case _ => NoMode
  {
    hide Canonical, NormalizeProfile, NormalizeExecProfile, DockerOf, K8sOf, ImagesOf, ClassNameOf, ReconciledProfile;
    hide DockerContextOf, KubeContextOf, ReconciledKind;
  }

  // ---- in every configuration ----

  /** The internal profile is that of the triple, or else the native one refined by kind and provider; the
      Kata flag is set when it was, or when the profile is Kata. */
  lemma {:induction false} ProfileOfNormalForm(c: Config)
    ensures var n := Normalized(c);
      && n.profile
         == (match n.execution.profile
             case Kata => KataProfile
             case GVisor => GVisorProfile
             case Firecracker => FirecrackerProfile
             case _ =>
               match n.kind
               case AppleContainer => AppleContainerProfile
               case OrbStackMachine => OrbStackMachineProfile
               case Docker => if n.docker.provider.OrbStackEngine? then OrbStackDockerProfile else NativeProfile
               case K8s => if n.k8s.provider.OrbStackLocal? then OrbStackK8sProfile else NativeProfile
               case _ => NativeProfile)
      && (n.kataEnabled <==> c.kataEnabled || n.profile.KataProfile?)
  {
    hide Canonical, NormalizeProfile, NormalizeExecProfile, ImagesOf, ClassNameOf, KubeContextOf, ModeFor, DockerContextOf, Derive;
  }

  /** A class name is kept; for a profile that needs one and has none it is Kata's, and Kata's follows. */
  lemma {:induction false} ClassNameOfNormalForm(c: Config)
    ensures var n := Normalized(c);
      && n.className == (if c.className == "" && n.execution.profile in {Kata, GVisor, Firecracker} then c.kataClass else c.className)
      && n.kataClass == (if n.className != "" then n.className else c.kataClass)
  {
    ExecutionIsStable(c.(profile := NormalizeProfile(c.profile)));
    hide Canonical, NormalizeProfile, NormalizeExecProfile, ImagesOf, KubeContextOf, ModeFor, DockerContextOf, DockerOf, K8sOf;
    hide ReconciledProfile, ReconciledKind, Triple, LegacyKind, InternalProfile, FilledIn;
  }

  /** Images that are given are kept; a missing one is filled in from the other, and where both are
      missing, for Apple containers, from Apple's.  Workspace roots have a default. */
  lemma {:induction false} ImagesOfNormalForm(c: Config)
    ensures var n := Normalized(c);
      && (c.images.run != "" ==> n.images.run == c.images.run)
      && (c.images.sandbox != "" ==> n.images.sandbox == c.images.sandbox)
      && (c.images.run == "" && c.images.sandbox != "" ==> n.images.run == c.images.sandbox)
      && (c.images.sandbox == "" && c.images.run != "" ==> n.images.sandbox == c.images.run)
      && (c.images.run == c.images.sandbox == "" ==>
            n.images.run == n.images.sandbox == if n.kind.AppleContainer? then c.images.apple else "")
      && n.images.apple == c.images.apple
      && n.appleRoot == (if c.appleRoot != "" then c.appleRoot else "/workspace")
      && n.openSandboxRoot == (if c.openSandboxRoot != "" then c.openSandboxRoot else "/workspace")
      && n.onKubernetes == c.onKubernetes && n.basics == c.basics
      && n.orbstack.machineName == c.orbstack.machineName && n.orbstack.binary == c.orbstack.binary
  {
    hide Canonical, NormalizeProfile, NormalizeExecProfile, KubeContextOf, ModeFor, DockerContextOf, Derive, DockerOf, K8sOf;
    hide ReconciledProfile, ReconciledKind, ClassNameOf;
  }

  // ---- spelling ----

  /** Trimming drops exactly the white space at both ends. */
  lemma {:induction false} TrimSpaceMeans(s: string) returns (i: nat, j: nat)
    ensures i <= j <= |s| && TrimSpace(s) == s[i..j]
    ensures forall k :: 0 <= k < i || j <= k < |s| ==> IsSpace(s[k])
    ensures i < j ==> !IsSpace(s[i]) && !IsSpace(s[j - 1])
  {
    hide IsSpace;
    if s != "" && IsSpace(s[0]) {
      var a, b := TrimSpaceMeans(s[1..]);
      i, j := a + 1, b + 1;
      assert s[1..][a..b] == s[i..j];
      assert forall k :: 0 < k < |s| ==> s[1..][k - 1] == s[k];
    } else if s != "" && IsSpace(s[|s| - 1]) {
      i, j := TrimSpaceMeans(s[..|s| - 1]);
    } else {
      i, j := 0, |s|;
    }
  }

  /** A profile may be spelled in any case, with white space around it; anything else is left as it is. */
  lemma {:induction false} SpelledProfile(text: string)
    ensures var p, name := NormalizeProfile(Spelled(text)), Lower(TrimSpace(text));
      && (p == NoProfile <==> name == "")
      && (p == KataProfile <==> name == "kata") && (p == GVisorProfile <==> name == "gvisor")
      && (p == FirecrackerProfile <==> name == "firecracker" || name == "microvm")
      && (p == DefaultProfile <==> name == "default") && (p == NativeProfile <==> name == "native")
      && (p == AppleContainerProfile <==> name == "apple-container")
      && (p == OrbStackDockerProfile <==> name == "orbstack-docker") && (p == OrbStackK8sProfile <==> name == "orbstack-k8s")
      && (p == OrbStackMachineProfile <==> name == "orbstack-machine")
      && (p.Spelled? ==> p.text == text)
  {
    hide Lower, TrimSpace;
  }

  lemma {:induction false} SpelledExecProfile(text: string)
    ensures var p, name := NormalizeExecProfile(SpelledExec(text)), Lower(TrimSpace(text));
      && (p == NoExecProfile <==> name == "") && (p == Default <==> name == "default")
      && (p == Kata <==> name == "kata") && (p == GVisor <==> name == "gvisor")
      && (p == Firecracker <==> name == "firecracker" || name == "microvm")
      && (p.SpelledExec? ==> p.text == text)
  {
    hide Lower, TrimSpace;
  }

  /** Which characters a letter of a name may be spelled with. */
  lemma {:induction false} LetterIsSpelled(c: char, letter: char)
    requires 'a' <= letter <= 'z'
    ensures LowerChar(c) == letter <==>
      || c == letter || (c as int) + 32 == letter as int
      || (letter == 'i' && c == '\U{130}') || (letter == 'k' && c == '\U{212A}')
  {
  }

  lemma {:induction false} SpacesAreThese(c: char)
    ensures IsSpace(c) <==>
      c in {'\t', '\n', '\U{0B}', '\U{0C}', '\r', ' ', '\U{85}', '\U{A0}', '\U{1680}', '\U{2000}', '\U{2001}', '\U{2002}',
            '\U{2003}', '\U{2004}', '\U{2005}', '\U{2006}', '\U{2007}', '\U{2008}', '\U{2009}', '\U{200A}',
            '\U{2028}', '\U{2029}', '\U{202F}', '\U{205F}', '\U{3000}'}
  {
  }

  lemma {:induction false} LowerMeans(s: string)
    ensures |Lower(s)| == |s| && forall k :: 0 <= k < |s| ==> Lower(s)[k] == LowerChar(s[k])
  {
    if s != "" {
      LowerMeans(s[1..]);
    }
  }
}
