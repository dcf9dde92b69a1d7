/** The presets a dynamic target can be built from, and the comparison of a target with a preset. */
module CapabilityBaseline {
  import opened ManagedAdminPolicy
  import opened Targets
  import opened Texts
  import opened Wrappers

  datatype Preset =
    | OperatorWorkspace
    | ReadOnlyPreset
    | OpenHandsRead
    | OpenHandsExecute
    | PostgresReadback
    | ManagedAdmin
    | DeepHarnessLab

  const WORKSPACE := "/opt/wandora/ops-workspace"
  const LAB_TARGET := "deepharness-semantic-lab"
  const LAB_CAPABILITY := "deepharness.semantic"

  const WORKSPACE_PROGRAMS := [
    "bash", "sh", "git", "node", "npm", "npx", "pnpm", "python3",
    "curl", "wget", "jq", "grep", "sed", "awk", "find", "head", "tail", "cat", "wc", "make"
  ]

  const AGENT_SERVICES := ["wandora-ops-agent.service", "wandora-ops-exec-broker.service"]
  const ADMIN_SERVICE := "wandora-ops-admin-broker.service"

  function AsciiAll(strings: seq<string>): seq<Text> {
    seq(|strings|, i requires 0 <= i < |strings| => Ascii(strings[i]))
  }

  function LocalEndpoint(): Endpoint {
    Endpoint(Ascii("127.0.0.1"), 22, Ascii("ops-mcp"), None, None, None, None, None, None)
  }

  function NoAuthority(profile: Profile): Authority {
    Authority(profile, [], [], [], [], [], [], [], [], [], [], [], [], [], [], [], [], [], [], [], [])
  }

  function Workspace(profile: Profile): Authority {
    NoAuthority(profile).(paths := AsciiAll([WORKSPACE]), services := AsciiAll(AGENT_SERVICES))
  }

  function OperatorAuthority(): Authority {
    Workspace(Operator).(
      serviceActions := AsciiAll(["restart"]), writePaths := AsciiAll([WORKSPACE]),
      processCwds := AsciiAll([WORKSPACE]),
      processPrograms := AsciiAll(WORKSPACE_PROGRAMS))
  }

  function PresetAuthority(preset: Preset): Authority {
    match preset
    case OperatorWorkspace => OperatorAuthority()
    case ReadOnlyPreset => Workspace(ReadOnly)
    case OpenHandsRead => NoAuthority(ReadOnly).(semanticCapabilities := AsciiAll(["openhands.read"]))
    case OpenHandsExecute =>
      NoAuthority(SemanticOperator).(semanticCapabilities := AsciiAll(["openhands.read", "openhands.execute"]))
    case PostgresReadback => NoAuthority(ReadOnly).(semanticCapabilities := AsciiAll(["postgres.pinned_readback"]))
    case DeepHarnessLab => NoAuthority(SemanticOperator).(semanticCapabilities := AsciiAll([LAB_CAPABILITY]))
    case ManagedAdmin =>
      OperatorAuthority().(
        services := AsciiAll(AGENT_SERVICES + [ADMIN_SERVICE]), semanticCapabilities := AsciiAll([CAPABILITY]),
        adminPrograms := AsciiAll(DEFAULT_PROGRAMS), adminCwds := AsciiAll(DEFAULT_CWDS))
  }

  datatype BuildRequest = BuildRequest(targetId: Text, deviceId: Text, environment: Environment, preset: Preset)

  predicate LabElsewhere(req: BuildRequest) {
    req.preset.DeepHarnessLab? && (req.targetId != Ascii(LAB_TARGET) || !req.environment.Development?)
  }

  /** The lab preset is refused for any other target name or environment. */
  function Build(req: BuildRequest): Option<Target> {
    if LabElsewhere(req) then None
    else
      Some(Target(req.targetId, Some(req.deviceId), req.environment, Agent, true, LocalEndpoint(),
                  PresetAuthority(req.preset)))
  }

  /** Lists are compared after sorting, so as multisets. */
  predicate SameAuthority(a: Authority, b: Authority) {
    && a.profile == b.profile
    && multiset(a.paths) == multiset(b.paths)
    && multiset(a.dockerContainers) == multiset(b.dockerContainers)
    && multiset(a.dockerExecContainers) == multiset(b.dockerExecContainers)
    && multiset(a.dockerExecPrograms) == multiset(b.dockerExecPrograms)
    && multiset(a.dockerActions) == multiset(b.dockerActions)
    && multiset(a.dockerImageLoadRoots) == multiset(b.dockerImageLoadRoots)
    && multiset(a.dockerCandidateImagePrefixes) == multiset(b.dockerCandidateImagePrefixes)
    && multiset(a.dockerCandidateNetworks) == multiset(b.dockerCandidateNetworks)
    && multiset(a.dockerCandidateNamePrefixes) == multiset(b.dockerCandidateNamePrefixes)
    && multiset(a.dockerCandidateHostPorts) == multiset(b.dockerCandidateHostPorts)
    && multiset(a.dockerCandidateContainerPorts) == multiset(b.dockerCandidateContainerPorts)
    && multiset(a.services) == multiset(b.services)
    && multiset(a.serviceActions) == multiset(b.serviceActions)
    && multiset(a.gitRepos) == multiset(b.gitRepos)
    && multiset(a.semanticCapabilities) == multiset(b.semanticCapabilities)
    && multiset(a.adminPrograms) == multiset(b.adminPrograms)
    && multiset(a.adminCwds) == multiset(b.adminCwds)
    && multiset(a.writePaths) == multiset(b.writePaths)
    && multiset(a.processCwds) == multiset(b.processCwds)
    && multiset(a.processPrograms) == multiset(b.processPrograms)
  }

  /** Whether a target has exactly a preset's authority; an error when the preset cannot be built for it. */
  function Validate(t: Target, preset: Preset): Option<bool> {
    if !t.transport.Agent? || t.deviceId.None? then Some(false)
    else
      match Build(BuildRequest(t.id, t.deviceId.value, t.environment, preset))
      case None => None
      case Some(expected) => Some(SameAuthority(t.authority, expected.authority))
  }

  /** Marks by which presets differ. */
  lemma PresetMarks(preset: Preset)
    ensures var caps := PresetAuthority(preset).semanticCapabilities;
            && (preset.OperatorWorkspace? || preset.ReadOnlyPreset? <==> |caps| == 0)
            && (preset.OpenHandsExecute? <==> |caps| == 2)
            && (preset.OpenHandsRead? ==> caps == [Ascii("openhands.read")])
            && (preset.PostgresReadback? ==> caps == [Ascii("postgres.pinned_readback")])
            && (preset.DeepHarnessLab? ==> caps == [Ascii(LAB_CAPABILITY)])
            && (preset.ManagedAdmin? ==> caps == [Ascii(CAPABILITY)])
  {
  }

  lemma CapabilitiesDiffer()
    ensures |Ascii("openhands.read")| == 14 && |Ascii("postgres.pinned_readback")| == 24
    ensures |Ascii(LAB_CAPABILITY)| == 20 && |Ascii(CAPABILITY)| == 18
  {
  }

  lemma SingletonsDiffer<T>(a: T, b: T)
    requires multiset([a]) == multiset([b])
    ensures a == b
  {
    assert multiset([a])[a] == 1 && multiset([b])[a] == if a == b then 1 else 0;
  }

  lemma CapabilitiesDecide(p: Preset, q: Preset)
    requires PresetAuthority(p).profile == PresetAuthority(q).profile
    requires multiset(PresetAuthority(p).semanticCapabilities) == multiset(PresetAuthority(q).semanticCapabilities)
    ensures p == q
  {
    PresetMarks(p);
    PresetMarks(q);
    CapabilitiesDiffer();
    var a, b := PresetAuthority(p).semanticCapabilities, PresetAuthority(q).semanticCapabilities;
    assert |a| == |multiset(a)| == |multiset(b)| == |b|;
    if |a| == 1 {
      SingletonsDiffer(a[0], b[0]);
    }
  }

  lemma SameAuthorityMarks(a: Authority, b: Authority)
    requires SameAuthority(a, b)
    ensures a.profile == b.profile && multiset(a.semanticCapabilities) == multiset(b.semanticCapabilities)
  {
  }

  lemma SameAsItself(a: Authority)
    ensures SameAuthority(a, a)
  {
  }

  /** No two presets grant the same. */
  lemma PresetsDiffer(p: Preset, q: Preset)
    ensures SameAuthority(PresetAuthority(p), PresetAuthority(q)) <==> p == q
  {
    if p == q {
      SameAsItself(PresetAuthority(p));
    } else if SameAuthority(PresetAuthority(p), PresetAuthority(q)) {
      SameAuthorityMarks(PresetAuthority(p), PresetAuthority(q));
      CapabilitiesDecide(p, q);
    }
  }

  /** A built target validates against the preset it was built from and against no other. */
  lemma ValidatesOwnPresetOnly(req: BuildRequest, preset: Preset)
    requires Build(req).Some?
    ensures Validate(Build(req).value, preset) == Some(true) <==> preset == req.preset
  {
    PresetsDiffer(req.preset, preset);
  }
}
