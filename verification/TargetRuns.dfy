/** Whole runs of target administration from an empty overlay: preparations, confirmations, restarts in any order. */
module TargetRuns {
  import opened ApprovalUtils
  import opened CapabilityBaseline
  import opened DeepHarnessRead
  import MA = ManagedAdminApprovals
  import opened ManagedAdminPolicy
  import opened Sequences
  import opened TargetApprovals
  import opened Targets
  import opened Texts
  import opened Wrappers

  type Order = seq<Target> -> seq<Target>

  /** Fixed for a run: the static file and the host's sorting. */
  datatype Setup = Setup(staticTargets: seq<Target>, order: Order)

  datatype Op =
    | Prepare(actor: Text, build: BuildRequest, id: Text, site: Site, at: Clock)
    | Apply(request: ApplyRequest, site: Site, at: Clock)
    | PrepareRead(actor: Text, id: Text, site: Site, at: Clock)
    | ApplyRead(request: ApplyRequest, site: Site, at: Clock)
    | Restart

  datatype State = State(approvals: Approvals, pending: ReadApprovals, registry: Registry)

  function Drawn(op: Op): set<Text> {
    match op
    case Prepare(_, _, id, _, _) => {id}
    case PrepareRead(_, id, _, _) => {id}
    case _ => {}
  }

  function Step(s: State, op: Op, order: Order): State {
    match op
    case Prepare(actor, build, id, site, at) =>
      s.(approvals := PrepareStep(s.approvals, actor, build, id, site, at).0)
    case Apply(request, site, at) =>
      var (approvals, registry, _) := ApplyStep(s.approvals, s.registry, request, site, at, order);
      s.(approvals := approvals, registry := registry)
    case PrepareRead(actor, id, site, at) =>
      s.(pending := PrepareReadStep(s.pending, s.registry.loaded, actor, id, site, at).0)
    case ApplyRead(request, site, at) =>
      var (pending, registry, _) := ApplyReadStep(s.pending, s.registry, request, site, at, order);
      s.(pending := pending, registry := registry)
    case Restart => State(map[], map[], LoadStep(s.registry.(loaded := None)).0)
  }

  /** The target an operation writes, if it is an application that goes through. */
  function Written(s: State, op: Op, order: Order): Option<Target> {
    match op
    case Apply(request, site, at) =>
      var r := ApplyStep(s.approvals, s.registry, request, site, at, order).2; if r.Ok? then Some(r.value) else None
    case ApplyRead(request, site, at) =>
      var r := ApplyReadStep(s.pending, s.registry, request, site, at, order).2; if r.Ok? then Some(r.value) else None
    case _ => None
  }

  function Start(staticTargets: seq<Target>): State {
    State(map[], map[], LoadStep(Registry(staticTargets, [], None)).0)
  }

  function Run(ops: seq<Op>, setup: Setup): State {
    if |ops| == 0 then Start(setup.staticTargets)
    else Step(Run(ops[..|ops| - 1], setup), ops[|ops| - 1], setup.order)
  }

  function DrawnBy(ops: seq<Op>): set<Text> {
    if |ops| == 0 then {} else DrawnBy(ops[..|ops| - 1]) + Drawn(ops[|ops| - 1])
  }

  ghost predicate PossibleAt(ops: seq<Op>, k: nat)
    requires k < |ops|
  {
    Drawn(ops[k]) !! DrawnBy(ops[..k])
  }

  /** The static file loads, sorting permutes, and approval identifiers are never drawn twice. */
  ghost predicate Valid(ops: seq<Op>, setup: Setup) {
    && Load(setup.staticTargets, []).Ok? && Sorting(setup.order)
    && forall k | 0 <= k < |ops| :: PossibleAt(ops, k)
  }

  lemma RunStep(ops: seq<Op>, k: nat, setup: Setup)
    requires k < |ops|
    ensures Run(ops[..k + 1], setup) == Step(Run(ops[..k], setup), ops[k], setup.order)
    ensures DrawnBy(ops[..k + 1]) == DrawnBy(ops[..k]) + Drawn(ops[k])
  {
    PrefixOfPrefix(ops, k);
  }

  ghost predicate Inv(s: State, staticTargets: seq<Target>, used: set<Text>) {
    && Consistent(s.registry) && s.registry.staticTargets == staticTargets
    && s.approvals.Keys + s.pending.Keys <= used && s.approvals.Keys !! s.pending.Keys
  }

  lemma RestartKeepsRegistry(r: Registry)
    requires Consistent(r)
    ensures LoadStep(r.(loaded := None)).0 == r
  {
  }

  /** What a step does to the registry: it writes one target, or nothing. */
  lemma RegistryAfter(s: State, op: Op, order: Order)
    requires Consistent(s.registry) && Sorting(order)
    ensures var t, w := Step(s, op, order), Written(s, op, order);
            t.registry == if w.Some? then UpsertStep(s.registry, w.value, order).0 else s.registry
  {
    match op
    case Apply(request, site, at) => ApplyExactly(s.approvals, s.registry, request, site, at, order);
    case ApplyRead(request, site, at) =>
      ApplyReadKeepsRegistry(s.pending, s.registry, request, site, at, order);
      ApplyReadExactly(s.pending, s.registry, request, site, at, order);
    case Restart => RestartKeepsRegistry(s.registry);
    case _ =>
  }

  lemma DesksAfter(s: State, op: Op, order: Order)
    ensures var t := Step(s, op, order);
            && t.approvals.Keys <= s.approvals.Keys + (if op.Prepare? then {op.id} else {})
            && t.pending.Keys <= s.pending.Keys + (if op.PrepareRead? then {op.id} else {})
  {
  }

  lemma StepKeepsInv(s: State, staticTargets: seq<Target>, used: set<Text>, op: Op, order: Order)
    requires Inv(s, staticTargets, used) && Drawn(op) !! used && Sorting(order)
    ensures Inv(Step(s, op, order), staticTargets, used + Drawn(op))
  {
    RegistryAfter(s, op, order);
    DesksAfter(s, op, order);
    var w := Written(s, op, order);
    if w.Some? {
      UpsertExactly(s.registry, w.value, order);
    }
  }

  ghost predicate InvAt(ops: seq<Op>, k: nat, setup: Setup)
    requires k <= |ops|
  {
    Inv(Run(ops[..k], setup), setup.staticTargets, DrawnBy(ops[..k]))
  }

  lemma NextKeepsInv(ops: seq<Op>, k: nat, setup: Setup)
    requires Valid(ops, setup) && k < |ops| && InvAt(ops, k, setup)
    ensures InvAt(ops, k + 1, setup)
  {
    assert PossibleAt(ops, k);
    RunStep(ops, k, setup);
    StepKeepsInv(Run(ops[..k], setup), setup.staticTargets, DrawnBy(ops[..k]), ops[k], setup.order);
  }

  lemma RunKeepsInv(ops: seq<Op>, k: nat, setup: Setup)
    requires Valid(ops, setup) && k <= |ops|
    ensures InvAt(ops, k, setup)
  {
    var m := 0;
    while m < k
      invariant m <= k && InvAt(ops, m, setup)
    {
      NextKeepsInv(ops, m, setup);
      m := m + 1;
    }
  }

  function WrittenAt(ops: seq<Op>, j: nat, setup: Setup): Option<Target>
    requires j < |ops|
  {
    Written(Run(ops[..j], setup), ops[j], setup.order)
  }

  function LoadedAt(ops: seq<Op>, k: nat, setup: Setup): Table
    requires k <= |ops|
  {
    Run(ops[..k], setup).registry.loaded.GetOr(map[])
  }

  /* The registry is the static file and the last target written under each identifier. */

  ghost predicate WritesOther(ops: seq<Op>, k: nat, id: Text, setup: Setup)
    requires k < |ops|
  {
    var w := WrittenAt(ops, k, setup); w.Some? ==> w.value.id != id
  }

  /** `t` was written by operation j, and nothing since under its identifier. */
  ghost predicate LastWritten(ops: seq<Op>, j: nat, k: nat, t: Target, setup: Setup)
    requires k <= |ops|
  {
    && j < k && WrittenAt(ops, j, setup) == Some(t)
    && forall i | j < i < k :: WritesOther(ops, i, t.id, setup)
  }

  lemma OverlayAfter(ops: seq<Op>, k: nat, t: Target, setup: Setup)
    requires Valid(ops, setup) && k < |ops|
    ensures var s, w := Run(ops[..k], setup), WrittenAt(ops, k, setup);
            t in Run(ops[..k + 1], setup).registry.overlay <==>
              w == Some(t) || (t in s.registry.overlay && (w.Some? ==> w.value.id != t.id))
  {
    RunKeepsInv(ops, k, setup);
    RunKeepsInv(ops, k + 1, setup);
    RunStep(ops, k, setup);
    var s, w := Run(ops[..k], setup), WrittenAt(ops, k, setup);
    RegistryAfter(s, ops[k], setup.order);
    if w.Some? {
      UpsertExactly(s.registry, w.value, setup.order);
      WrittenIsUpserted(s, ops[k], setup.order);
    }
  }

  lemma WrittenIsUpserted(s: State, op: Op, order: Order)
    requires Consistent(s.registry) && Sorting(order) && Written(s, op, order).Some?
    ensures UpsertStep(s.registry, Written(s, op, order).value, order).1.Ok?
  {
    UpsertExactly(s.registry, Written(s, op, order).value, order);
    match op
    case Apply(request, site, at) => ApplyExactly(s.approvals, s.registry, request, site, at, order);
    case ApplyRead(request, site, at) =>
      ApplyReadExactly(s.pending, s.registry, request, site, at, order);
  }

  ghost predicate StoredAt(ops: seq<Op>, k: nat, t: Target, setup: Setup)
    requires k <= |ops|
  {
    t in Run(ops[..k], setup).registry.overlay
  }

  lemma NextStaysStored(ops: seq<Op>, k: nat, t: Target, setup: Setup)
    requires Valid(ops, setup) && k < |ops| && StoredAt(ops, k, t, setup) && WritesOther(ops, k, t.id, setup)
    ensures StoredAt(ops, k + 1, t, setup)
  {
    OverlayAfter(ops, k, t, setup);
  }

  lemma {:induction false} StoredStays(ops: seq<Op>, i: nat, k: nat, t: Target, setup: Setup)
    requires Valid(ops, setup) && i <= k <= |ops| && StoredAt(ops, i, t, setup)
    requires forall m | i <= m < k :: WritesOther(ops, m, t.id, setup)
    ensures StoredAt(ops, k, t, setup)
    decreases k - i
  {
    if i < k {
      NextStaysStored(ops, i, t, setup);
      StoredStays(ops, i + 1, k, t, setup);
    }
  }

  lemma LastWrittenIsStored(ops: seq<Op>, j: nat, k: nat, t: Target, setup: Setup)
    requires Valid(ops, setup) && k <= |ops| && LastWritten(ops, j, k, t, setup)
    ensures StoredAt(ops, k, t, setup)
  {
    OverlayAfter(ops, j, t, setup);
    StoredStays(ops, j + 1, k, t, setup);
  }

  lemma {:induction false} StoredIsLastWritten(ops: seq<Op>, k: nat, t: Target, setup: Setup) returns (j: nat)
    requires Valid(ops, setup) && k <= |ops| && t in Run(ops[..k], setup).registry.overlay
    ensures LastWritten(ops, j, k, t, setup)
  {
    OverlayAfter(ops, k - 1, t, setup);
    if WrittenAt(ops, k - 1, setup) == Some(t) {
      j := k - 1;
    } else {
      j := StoredIsLastWritten(ops, k - 1, t, setup);
    }
  }

  /**
    * At every moment the loaded registry answers a name with its static target, which never changes, or else with the
    * target last written under that name, and with nothing when there is neither.
    */
  lemma RegistryIsStaticAndLastWritten(ops: seq<Op>, k: nat, id: Text, t: Target, setup: Setup)
    requires Valid(ops, setup) && k <= |ops|
    ensures id in LoadedAt(ops, k, setup) && LoadedAt(ops, k, setup)[id] == t
            <==> t.id == id && (t in setup.staticTargets || exists j: nat :: LastWritten(ops, j, k, t, setup))
  {
    RunKeepsInv(ops, k, setup);
    LookupExactly(Run(ops[..k], setup).registry, id, t);
    if t in Run(ops[..k], setup).registry.overlay {
      var j := StoredIsLastWritten(ops, k, t, setup);
    }
    if j: nat :| LastWritten(ops, j, k, t, setup) {
      LastWrittenIsStored(ops, j, k, t, setup);
    }
  }

  /* Where a written target comes from. */

  /** This preparation stored the approval. */
  ghost predicate Prepares(op: Op, id: Text, a: Approval) {
    && op.Prepare? && op.id == id && op.actor == a.actor
    && Build(op.build) == Some(a.target) && a.expiresAt == op.at.stampAt + APPROVAL_TTL_MS
  }

  lemma ApprovalIsAnOp(s: State, op: Op, id: Text, order: Order)
    requires id in Step(s, op, order).approvals
    ensures var a := Step(s, op, order).approvals[id];
            Prepares(op, id, a) || (id in s.approvals && s.approvals[id] == a)
  {
  }

  lemma {:induction false} ApprovalSource(ops: seq<Op>, k: nat, id: Text, setup: Setup) returns (i: nat)
    requires k <= |ops| && id in Run(ops[..k], setup).approvals
    ensures i < k && Prepares(ops[i], id, Run(ops[..k], setup).approvals[id])
  {
    RunStep(ops, k - 1, setup);
    ApprovalIsAnOp(Run(ops[..k - 1], setup), ops[k - 1], id, setup.order);
    if Prepares(ops[k - 1], id, Run(ops[..k], setup).approvals[id]) {
      i := k - 1;
    } else {
      i := ApprovalSource(ops, k - 1, id, setup);
    }
  }

  ghost predicate PreparesRead(op: Op, id: Text, p: ReadApproval) {
    op.PrepareRead? && op.id == id && op.actor == p.actor && p.expires == op.at.stampAt + APPROVAL_TTL_MS
  }

  lemma ReadApprovalIsAnOp(s: State, op: Op, id: Text, order: Order)
    requires id in Step(s, op, order).pending
    ensures var p := Step(s, op, order).pending[id];
            PreparesRead(op, id, p) || (id in s.pending && s.pending[id] == p)
  {
  }

  lemma {:induction false} ReadSource(ops: seq<Op>, k: nat, id: Text, setup: Setup) returns (i: nat)
    requires k <= |ops| && id in Run(ops[..k], setup).pending
    ensures i < k && PreparesRead(ops[i], id, Run(ops[..k], setup).pending[id])
  {
    RunStep(ops, k - 1, setup);
    ReadApprovalIsAnOp(Run(ops[..k - 1], setup), ops[k - 1], id, setup.order);
    if PreparesRead(ops[k - 1], id, Run(ops[..k], setup).pending[id]) {
      i := k - 1;
    } else {
      i := ReadSource(ops, k - 1, id, setup);
    }
  }

  /** Operation i prepared, at most ten minutes before and for the same actor, what operation j applied. */
  ghost predicate PreparedFor(ops: seq<Op>, i: nat, j: nat, t: Target)
    requires i < j < |ops|
  {
    && (ops[i].Prepare? || ops[i].PrepareRead?) && (ops[j].Apply? || ops[j].ApplyRead?)
    && ops[i].id == ops[j].request.approvalId && ops[i].actor == ops[j].request.actor
    && ops[j].at.purgeAt <= ops[i].at.stampAt + APPROVAL_TTL_MS
    && (ops[j].Apply? ==> ops[i].Prepare? && Build(ops[i].build) == Some(t))
    && (ops[j].ApplyRead? ==> ops[i].PrepareRead? && t.id == Ascii(READ_TARGET))
  }

  /** Whatever is written was prepared earlier by the actor who confirmed it in the typed sentence. */
  lemma WrittenFromOwnApproval(ops: seq<Op>, j: nat, setup: Setup) returns (i: nat)
    requires Valid(ops, setup) && j < |ops| && WrittenAt(ops, j, setup).Some?
    ensures ops[j].Apply? || ops[j].ApplyRead?
    ensures i < j && PreparedFor(ops, i, j, WrittenAt(ops, j, setup).value)
    ensures Confirms(ops[j].request.approvalId, ops[j].request.confirmation)
  {
    RunKeepsInv(ops, j, setup);
    var s := Run(ops[..j], setup);
    match ops[j]
    case Apply(request, site, at) =>
      ApplyExactly(s.approvals, s.registry, request, site, at, setup.order);
      i := ApprovalSource(ops, j, request.approvalId, setup);
    case ApplyRead(request, site, at) =>
      ApplyReadExactly(s.pending, s.registry, request, site, at, setup.order);
      i := ReadSource(ops, j, request.approvalId, setup);
  }

  /** The identifier was drawn, and neither desk holds an approval under it. */
  ghost predicate SpentAt(ops: seq<Op>, k: nat, id: Text, setup: Setup)
    requires k <= |ops|
  {
    var s := Run(ops[..k], setup);
    id !in s.approvals && id !in s.pending && id in DrawnBy(ops[..k])
  }

  lemma WritingSpends(ops: seq<Op>, j: nat, setup: Setup)
    requires Valid(ops, setup) && j < |ops| && WrittenAt(ops, j, setup).Some?
    ensures ops[j].Apply? || ops[j].ApplyRead?
    ensures SpentAt(ops, j + 1, ops[j].request.approvalId, setup) && !SpentAt(ops, j, ops[j].request.approvalId, setup)
  {
    RunKeepsInv(ops, j, setup);
    RunStep(ops, j, setup);
    var s := Run(ops[..j], setup);
    match ops[j]
    case Apply(request, site, at) => ApplyExactly(s.approvals, s.registry, request, site, at, setup.order);
    case ApplyRead(request, site, at) => ApplyReadExactly(s.pending, s.registry, request, site, at, setup.order);
  }

  lemma NextStaysSpent(ops: seq<Op>, k: nat, id: Text, setup: Setup)
    requires Valid(ops, setup) && k < |ops| && SpentAt(ops, k, id, setup)
    ensures SpentAt(ops, k + 1, id, setup)
  {
    assert PossibleAt(ops, k);
    RunStep(ops, k, setup);
    DesksAfter(Run(ops[..k], setup), ops[k], setup.order);
  }

  lemma SpentStays(ops: seq<Op>, i: nat, j: nat, id: Text, setup: Setup)
    requires Valid(ops, setup) && i <= j <= |ops| && SpentAt(ops, i, id, setup)
    ensures SpentAt(ops, j, id, setup)
  {
    var m := i;
    while m < j
      invariant i <= m <= j && SpentAt(ops, m, id, setup)
    {
      NextStaysSpent(ops, m, id, setup);
      m := m + 1;
    }
  }

  /** An approval is applied at most once, whatever the desk. */
  lemma AppliedOnce(ops: seq<Op>, i: nat, j: nat, setup: Setup)
    requires Valid(ops, setup) && i < j < |ops|
    requires WrittenAt(ops, i, setup).Some? && WrittenAt(ops, j, setup).Some?
    ensures (ops[i].Apply? || ops[i].ApplyRead?) && (ops[j].Apply? || ops[j].ApplyRead?)
    ensures ops[i].request.approvalId != ops[j].request.approvalId
  {
    WritingSpends(ops, i, setup);
    WritingSpends(ops, j, setup);
    SpentStays(ops, i + 1, j, ops[i].request.approvalId, setup);
  }

  /* The authority a dynamic target can hold. */

  predicate FromPreset(t: Target, preset: Preset) {
    t.deviceId.Some? && Build(BuildRequest(t.id, t.deviceId.value, t.environment, preset)) == Some(t)
  }

  /** The read-only preset of the one named target, with the two fixed containers. */
  predicate ReadExtended(t: Target) {
    && t.id == Ascii(READ_TARGET) && t.environment.Production? && t.deviceId.Some?
    && Some(t) == Some(WithContainers(Build(BuildRequest(t.id, t.deviceId.value, Production, ReadOnlyPreset)).value))
  }

  ghost predicate PresetOnly(t: Target) {
    ReadExtended(t) || exists preset :: FromPreset(t, preset)
  }

  lemma BuiltIsFromPreset(req: BuildRequest)
    requires Build(req).Some?
    ensures PresetOnly(Build(req).value)
  {
    assert FromPreset(Build(req).value, req.preset);
  }

  /** The baseline test lets only the read-only preset through, extended already or not. */
  lemma ExtendingStaysPreset(t: Target)
    requires PresetOnly(t) && t.id == Ascii(READ_TARGET) && t.environment.Production?
    requires t.authority.profile.ReadOnly? && Untouched(t.authority)
    ensures ReadExtended(WithContainers(t))
  {
    if preset :| FromPreset(t, preset) {
      PresetMarks(preset);
      assert preset.ReadOnlyPreset?;
    }
  }

  ghost predicate OverlayPresetOnly(ops: seq<Op>, k: nat, setup: Setup)
    requires k <= |ops|
  {
    forall t | t in Run(ops[..k], setup).registry.overlay :: PresetOnly(t)
  }

  lemma NextWritesPreset(ops: seq<Op>, k: nat, setup: Setup)
    requires Valid(ops, setup) && k < |ops| && OverlayPresetOnly(ops, k, setup) && WrittenAt(ops, k, setup).Some?
    ensures PresetOnly(WrittenAt(ops, k, setup).value)
  {
    RunKeepsInv(ops, k, setup);
    var s := Run(ops[..k], setup);
    var i := WrittenFromOwnApproval(ops, k, setup);
    match ops[k]
    case Apply(_, _, _) => BuiltIsFromPreset(ops[i].build);
    case ApplyRead(request, site, at) =>
      ApplyReadExactly(s.pending, s.registry, request, site, at, setup.order);
      ExtendingStaysPreset(Baseline(s.registry.loaded, site, at.liveAt).value);
  }

  lemma NextKeepsPresets(ops: seq<Op>, k: nat, setup: Setup)
    requires Valid(ops, setup) && k < |ops| && OverlayPresetOnly(ops, k, setup)
    ensures OverlayPresetOnly(ops, k + 1, setup)
  {
    if WrittenAt(ops, k, setup).Some? {
      NextWritesPreset(ops, k, setup);
    }
    forall t | t in Run(ops[..k + 1], setup).registry.overlay ensures PresetOnly(t) {
      OverlayAfter(ops, k, t, setup);
    }
  }

  /** Every dynamic target has exactly one preset's authority, or the read-only one's and the two containers. */
  lemma DynamicTargetsArePresets(ops: seq<Op>, k: nat, setup: Setup)
    requires Valid(ops, setup) && k <= |ops|
    ensures OverlayPresetOnly(ops, k, setup)
  {
    var m := 0;
    while m < k
      invariant m <= k && OverlayPresetOnly(ops, m, setup)
    {
      NextKeepsPresets(ops, m, setup);
      m := m + 1;
    }
  }

  /**
    * A dynamic target that managed administration accepts was built from the managed-admin preset: its programs and
    * directories are the default tables.
    */
  lemma ManagedAdminOnlyByPreset(ops: seq<Op>, k: nat, w: MA.World, id: Text, setup: Setup)
    requires Valid(ops, setup) && k <= |ops| && w.targets == LoadedAt(ops, k, setup)
    requires !HasId(setup.staticTargets, id) && MA.RequireTarget(w, id).Ok?
    ensures FromPreset(w.targets[id], ManagedAdmin)
    ensures w.targets[id].authority.adminPrograms == AsciiAll(DEFAULT_PROGRAMS)
    ensures w.targets[id].authority.adminCwds == AsciiAll(DEFAULT_CWDS)
  {
    var t := w.targets[id];
    RunKeepsInv(ops, k, setup);
    DynamicTargetsArePresets(ops, k, setup);
    LookupExactly(Run(ops[..k], setup).registry, id, t);
    assert t in setup.staticTargets ==> HasId(setup.staticTargets, id);
    CapabilitiesDiffer();
    if preset :| FromPreset(t, preset) {
      PresetMarks(preset);
    }
  }

  /** The registry of a run is as the managed-admin model expects it of its world. */
  lemma RegistryIsShaped(ops: seq<Op>, k: nat, w: MA.World, setup: Setup)
    requires Valid(ops, setup) && k <= |ops| && w.targets == LoadedAt(ops, k, setup)
    requires forall t | t in setup.staticTargets :: WellShaped(t)
    ensures w.Shaped()
  {
    RunKeepsInv(ops, k, setup);
    var r := Run(ops[..k], setup).registry;
    forall id | id in w.targets ensures w.targets[id].id == id && WellShaped(w.targets[id]) {
      LookupExactly(r, id, w.targets[id]);
    }
  }
}
