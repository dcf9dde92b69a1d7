/** A world in which an action can be prepared, confirmed and delivered: what the runs suppose is possible. */
module SampleScene {
  import opened ApprovalUtils
  import opened AuthorityChain
  import opened CapabilityBaseline
  import opened ManagedAdminApprovals
  import opened ManagedAdminBroker
  import opened ManagedAdminPolicy
  import opened ManagedAdminTicket
  import opened Paths
  import opened ReplayLedger
  import opened SteadyRuns
  import opened Targets
  import opened Texts
  import opened Wrappers

  const ROOT: Text := [SLASH]

  function TargetId(): Text { Ascii("aa") }

  function DeviceId(): Text { Ascii("dev_aaaaaaaa") }

  function Program(): Text { Ascii("journalctl") }

  function Secret(): Text { seq(32, _ => 'a' as int) }

  function SampleTarget(): Target {
    Target(TargetId(), Some(DeviceId()), Production, Agent, true, LocalEndpoint(),
           NoAuthority(Operator).(
             semanticCapabilities := [Ascii(CAPABILITY)], adminPrograms := [Program()], adminCwds := [ROOT]))
  }

  function SampleWorld(): World {
    World(true, Some(Secret()), map[TargetId() := SampleTarget()], {},
          map[DeviceId() := Device(false, Some(1), [Ascii(CAPABILITY)])], 1000)
  }

  function SampleAction(): Action {
    Action(TargetId(), DeviceId(), Program(), [], ROOT, 30000)
  }

  /** Texts and integers are left as they are; anything else is empty or no number. */
  function PlainCoercions(): Coercions {
    Coercions((j: Json) => if j.Str? then j.s else [], (j: Json) => if j.Int? then Some(j.n) else None)
  }

  function SampleSetup(): Setup {
    Setup(Secret(), PlainCoercions())
  }

  /** The broker's own directory check: everything resolves to the root. */
  function SampleAuthority(): ManagedAdminBroker.Authority {
    ManagedAdminBroker.Authority(DeviceId(), [ROOT], [Program()], Derived(Secret()), _ => Some(ROOT))
  }

  const CLOCK := Clock(1, 1, 1)

  function Asking(): Event {
    var req := PrepareRequest([], TargetId(), Str(Program()), Missing, Str(ROOT), Missing);
    Prepare(req, NameOf('a').id, SampleWorld(), CLOCK)
  }

  function Agreeing(): Event {
    var name := NameOf('a');
    Confirm(ApplyRequest([], TargetId(), name.id, Ascii("APPROVE ") + name.id), SampleWorld(), CLOCK, name.nonce)
  }

  function Presenting(): Event {
    var ticket := TicketFor(SampleAction(), NameOf('a').nonce, 1);
    var signature := Signed(Derived(Secret()), CanonicalBytes(ticket));
    Present(ToJson(ticket), signature, SampleAuthority(), Reading(1, 1), false)
  }

  function Sample(): Scene {
    Scene(Asking(), Agreeing(), Presenting(), SampleAction())
  }

  lemma {:induction false} UnitsAtLeast(t: Text)
    ensures Units(t) >= |t|
  {
    if t != [] {
      UnitsAtLeast(t[1..]);
    }
  }

  lemma RootIsAllowed()
    ensures CwdLexicallyAllowed(ROOT, [ROOT]) && StripSlashes(ROOT) == []
  {
    assert ROOT[1..] == [] && ROOT[..0] == [];
    assert DOT_DOT !in Split(ROOT, SLASH);
    assert Under(Clean(ROOT), Clean([ROOT][0]));
  }

  lemma ProgramIsAllowed()
    ensures IsProgram(Program()) && !HardDenied(Program())
  {
    forall i | 0 <= i < |HARD_DENY| ensures Ascii(HARD_DENY[i]) != Program() {
      assert |Ascii(HARD_DENY[i])| == |HARD_DENY[i]| <= 7 < |Program()|;
    }
  }

  lemma SampleIsShaped()
    ensures SampleWorld().Shaped()
  {
    assert Ascii("dev_") <= DeviceId();
  }

  lemma SampleIsGranted(req: PrepareRequest)
    requires req.targetId == TargetId() && req.program == Str(Program()) && req.cwd == Str(ROOT)
    requires req.argv.Missing? || req.argv == Arr([])
    requires req.timeoutMs.Missing? || req.timeoutMs == Int(30000)
    ensures Granted(req, SampleWorld(), PlainCoercions(), 1) == Ok(SampleAction())
  {
    UnitsAtLeast(Secret());
    RootIsAllowed();
    ProgramIsAllowed();
    assert Texted([], PlainCoercions()) == [];
  }

  lemma SampleIsLocal(nonce: Text)
    ensures ValidateLocal(TicketFor(SampleAction(), nonce, 1), SampleAuthority(), 1).Ok?
  {
    RootIsAllowed();
    ProgramIsAllowed();
    var roots := RealRoots(SampleAuthority()).value;
    assert Under([], roots[0]);
  }

  lemma SampleIsAsked()
    ensures Asked(Asking(), SampleAction(), SampleSetup())
  {
    SampleIsGranted(Asking().prepare);
  }

  lemma AgreesWith(p: Event, w: World, clock: Clock, nonce: Text, words: Text, action: Action, setup: Setup)
    requires p.Prepare? && w.Shaped() && w.secret == Some(setup.secret) && IsNonce(nonce) && Confirms(p.id, words)
    requires clock.purgeAt <= p.clock.stampAt + APPROVAL_TTL_MS
    requires Granted(Again(p.prepare.actor, action), w, setup.coercions, clock.liveAt) == Ok(action)
    ensures var apply := ApplyRequest(p.prepare.actor, action.targetId, p.id, words);
            Agreed(p, Confirm(apply, w, clock, nonce), action, setup)
  {
  }

  lemma SampleIsAgreed()
    ensures Agreed(Asking(), Agreeing(), SampleAction(), SampleSetup())
  {
    var name := NameOf('a');
    NamesAreUsable();
    SampleIsShaped();
    SampleIsGranted(Again([], SampleAction()));
    TypedWordsConfirm(name.id);
    AgreesWith(
      Asking(), SampleWorld(), CLOCK, name.nonce, Ascii("APPROVE ") + name.id, SampleAction(), SampleSetup());
  }

  lemma SampleIsDelivered()
    ensures Delivered(Agreeing(), Presenting(), SampleAction(), SampleSetup())
  {
    SampleIsLocal(NameOf('a').nonce);
  }

  /** So the runs of the chain, honest and replaying, are not about nothing. */
  lemma SampleWorks()
    ensures Works(Sample(), SampleSetup())
  {
    SampleIsAsked();
    SampleIsAgreed();
    SampleIsDelivered();
    assert PlainCoercions().Lawful();
  }
}
