/** The target registry: a static file the process only reads, and a dynamic overlay it rewrites. */
module Targets {
  import opened ManagedAdminTicket
  import opened Texts
  import opened Wrappers

  datatype Profile = ReadOnly | ProdReadMostly | Operator | SemanticOperator

  datatype Environment = Production | Staging | Development

  datatype Transport = Ssh | Mock | Agent

  /** The fields that grant something. */
  datatype Authority = Authority(
    profile: Profile, paths: seq<Text>, dockerContainers: seq<Text>, dockerExecContainers: seq<Text>,
    dockerExecPrograms: seq<Text>, dockerActions: seq<Text>, dockerImageLoadRoots: seq<Text>,
    dockerCandidateImagePrefixes: seq<Text>, dockerCandidateNetworks: seq<Text>,
    dockerCandidateNamePrefixes: seq<Text>, dockerCandidateHostPorts: seq<int>,
    dockerCandidateContainerPorts: seq<int>, services: seq<Text>, serviceActions: seq<Text>, gitRepos: seq<Text>,
    semanticCapabilities: seq<Text>, adminPrograms: seq<Text>, adminCwds: seq<Text>, writePaths: seq<Text>,
    processCwds: seq<Text>, processPrograms: seq<Text>)

  datatype Endpoint = Endpoint(
    host: Text, port: int, username: Text, credentialRef: Option<Text>, keyFile: Option<Text>,
    hostKeyFingerprint: Option<Text>, hostKey: Option<Text>, commandTimeoutMs: Option<int>,
    connectTimeoutMs: Option<int>)

  datatype Target = Target(
    id: Text, deviceId: Option<Text>, environment: Environment, transport: Transport, enabled: bool,
    endpoint: Endpoint, authority: Authority)

  type Table = map<Text, Target>

  datatype LoadError = AgentWithoutDevice(id: Text) | DuplicateTarget(id: Text) | StaticOverridden(id: Text)

  datatype UpsertError = SchemaRefused | NotAnAgent | StaticTarget | LoadFailed(error: LoadError)

  /** What the schema demands of identifiers; the other fields the callers pass satisfy it by construction. */
  predicate WellShaped(t: Target) {
    IsTargetId(t.id) && |t.id| <= 40 && (t.deviceId.Some? ==> IsDeviceId(t.deviceId.value))
  }

  predicate Deviceless(t: Target) {
    t.transport.Agent? && t.deviceId.None?
  }

  function Insert(m: Table, t: Target, dynamic: bool): Result<Table, LoadError> {
    if Deviceless(t) then Err(AgentWithoutDevice(t.id))
    else if t.id in m then Err(if dynamic then StaticOverridden(t.id) else DuplicateTarget(t.id))
    else Ok(m[t.id := t])
  }

  /** One entry after the other, stopping at the first that does not go in. */
  function InsertAll(m: Table, targets: seq<Target>, dynamic: bool): Result<Table, LoadError> {
    if targets == [] then Ok(m)
    else
      var sofar :- InsertAll(m, targets[..|targets| - 1], dynamic);
      Insert(sofar, targets[|targets| - 1], dynamic)
  }

  function Load(staticTargets: seq<Target>, overlay: seq<Target>): Result<Table, LoadError> {
    var m :- InsertAll(map[], staticTargets, false);
    InsertAll(m, overlay, true)
  }

  function Without(targets: seq<Target>, id: Text): seq<Target> {
    if targets == [] then []
    else
      var rest := Without(targets[..|targets| - 1], id);
      if targets[|targets| - 1].id != id then rest + [targets[|targets| - 1]] else rest
  }

  predicate HasId(targets: seq<Target>, id: Text) {
    exists i | 0 <= i < |targets| :: targets[i].id == id
  }

  /** `order` sorts by the host's collation of identifiers: some permutation. */
  ghost predicate Sorting(order: seq<Target> -> seq<Target>) {
    forall targets: seq<Target> :: multiset(order(targets)) == multiset(targets)
  }

  datatype Registry = Registry(staticTargets: seq<Target>, overlay: seq<Target>, loaded: Option<Table>)

  function LoadStep(r: Registry): (Registry, Result<Table, LoadError>) {
    var loaded := Load(r.staticTargets, r.overlay);
    (if loaded.Ok? then r.(loaded := Some(loaded.value)) else r, loaded)
  }

  function Lookup(m: Table, id: Text): Option<Target> {
    if id in m then Some(m[id]) else None
  }

  function UpsertStep(r: Registry, t: Target, order: seq<Target> -> seq<Target>)
    : (Registry, Result<Option<Target>, UpsertError>)
  {
    if !WellShaped(t) then (r, Err(SchemaRefused))
    else if !t.transport.Agent? || t.deviceId.None? then (r, Err(NotAnAgent))
    else if HasId(r.staticTargets, t.id) then (r, Err(StaticTarget))
    else
      var (next, loaded) := LoadStep(r.(overlay := order(Without(r.overlay, t.id) + [t])));
      match loaded
      case Err(e) => (next, Err(LoadFailed(e)))
      case Ok(m) => (next, Ok(Lookup(m, t.id)))
  }

  /* What loading gives. */

  /** No target twice, and no two with one identifier. */
  ghost predicate Unique(targets: seq<Target>) {
    && (forall t | t in targets :: multiset(targets)[t] == 1)
    && (forall t, u | t in targets && u in targets && t.id == u.id :: t == u)
  }

  ghost predicate Insertable(m: Table, targets: seq<Target>) {
    Unique(targets) && forall t | t in targets :: t.id !in m && !Deviceless(t)
  }

  /** The table holds the old entries and the new targets by identifier, nothing else. */
  ghost predicate Holds(r: Table, m: Table, targets: seq<Target>) {
    && (forall x | x in m :: x in r && r[x] == m[x])
    && (forall t | t in targets :: t.id in r && r[t.id] == t)
    && (forall x | x in r :: x in m || (r[x] in targets && r[x].id == x))
  }

  lemma LastOf(targets: seq<Target>)
    requires targets != []
    ensures var init, last := targets[..|targets| - 1], targets[|targets| - 1];
            multiset(targets) == multiset(init) + multiset{last} && forall t :: t in targets <==> t in init || t == last
  {
    assert targets == targets[..|targets| - 1] + [targets[|targets| - 1]];
  }

  lemma UniqueInit(targets: seq<Target>)
    requires targets != []
    ensures var init, last := targets[..|targets| - 1], targets[|targets| - 1];
            Unique(targets) <==> Unique(init) && forall t | t in init :: t.id != last.id
  {
    LastOf(targets);
    var init, last := targets[..|targets| - 1], targets[|targets| - 1];
    if Unique(targets) {
      assert multiset(targets)[last] == 1;
      forall t | t in init ensures multiset(init)[t] == 1 && t.id != last.id {
        assert t in targets && multiset(targets)[t] == 1 && multiset(init)[t] >= 1;
      }
    }
    if Unique(init) && forall t | t in init :: t.id != last.id {
      assert last !in init;
      assert multiset(init)[last] == 0;
    }
  }

  /** Loading succeeds exactly on distinct, new identifiers of targets with their device; the table is then exact. */
  lemma {:induction false} InsertsExactly(m: Table, targets: seq<Target>, dynamic: bool)
    ensures InsertAll(m, targets, dynamic).Ok? <==> Insertable(m, targets)
    ensures InsertAll(m, targets, dynamic).Ok? ==> Holds(InsertAll(m, targets, dynamic).value, m, targets)
  {
    if targets != [] {
      var init, last := targets[..|targets| - 1], targets[|targets| - 1];
      InsertsExactly(m, init, dynamic);
      UniqueInit(targets);
      LastOf(targets);
      if InsertAll(m, init, dynamic).Ok? {
        InsertLast(InsertAll(m, init, dynamic).value, m, init, last, dynamic);
      }
    }
  }

  lemma InsertLast(r: Table, m: Table, init: seq<Target>, last: Target, dynamic: bool)
    requires Holds(r, m, init)
    ensures Insert(r, last, dynamic).Ok? <==>
              last.id !in m && !Deviceless(last) && forall t | t in init :: t.id != last.id
    ensures Insert(r, last, dynamic).Ok? ==>
              && (forall x | x in m :: x in Insert(r, last, dynamic).value && Insert(r, last, dynamic).value[x] == m[x])
              && (forall t | t in init || t == last ::
                    t.id in Insert(r, last, dynamic).value && Insert(r, last, dynamic).value[t.id] == t)
              && (forall x | x in Insert(r, last, dynamic).value ::
                    var t := Insert(r, last, dynamic).value[x]; x in m || ((t in init || t == last) && t.id == x))
  {
  }

  lemma {:induction false} WithoutExactly(targets: seq<Target>, id: Text)
    ensures forall t :: multiset(Without(targets, id))[t] == if t.id == id then 0 else multiset(targets)[t]
  {
    if targets != [] {
      LastOf(targets);
      WithoutExactly(targets[..|targets| - 1], id);
    }
  }

  lemma UpsertedOverlay(overlay: seq<Target>, t: Target, order: seq<Target> -> seq<Target>)
    requires Sorting(order)
    ensures var next := order(Without(overlay, t.id) + [t]);
            && (forall u :: u in next <==> u == t || (u in overlay && u.id != t.id))
            && (Unique(overlay) ==> Unique(next))
  {
    var kept := Without(overlay, t.id);
    var next := order(kept + [t]);
    WithoutExactly(overlay, t.id);
    assert multiset(next) == multiset(kept) + multiset{t};
    forall u ensures u in next <==> u == t || (u in overlay && u.id != t.id) {
      assert u in next <==> multiset(next)[u] > 0;
      assert u in overlay <==> multiset(overlay)[u] > 0;
    }
  }

  /** The overlay holds agent targets apart from the static ones, and memory holds exactly both files. */
  ghost predicate Consistent(r: Registry) {
    && InsertAll(map[], r.staticTargets, false).Ok?
    && Unique(r.overlay)
    && (forall t | t in r.overlay ::
          WellShaped(t) && t.transport.Agent? && t.deviceId.Some? && !HasId(r.staticTargets, t.id))
    && Load(r.staticTargets, r.overlay).Ok? && r.loaded == Some(Load(r.staticTargets, r.overlay).value)
  }

  lemma StaticIds(staticTargets: seq<Target>, id: Text)
    requires InsertAll(map[], staticTargets, false).Ok?
    ensures id in InsertAll(map[], staticTargets, false).value <==> HasId(staticTargets, id)
  {
    InsertsExactly(map[], staticTargets, false);
    if HasId(staticTargets, id) {
      var i :| 0 <= i < |staticTargets| && staticTargets[i].id == id;
      assert staticTargets[i] in staticTargets;
    }
  }

  lemma LoadsOverlay(staticTargets: seq<Target>, overlay: seq<Target>)
    requires InsertAll(map[], staticTargets, false).Ok? && Unique(overlay)
    requires forall t | t in overlay :: t.deviceId.Some? && !HasId(staticTargets, t.id)
    ensures Load(staticTargets, overlay).Ok?
    ensures Holds(Load(staticTargets, overlay).value, InsertAll(map[], staticTargets, false).value, overlay)
  {
    var m := InsertAll(map[], staticTargets, false).value;
    forall t | t in overlay ensures t.id !in m {
      StaticIds(staticTargets, t.id);
    }
    InsertsExactly(m, overlay, true);
  }

  /**
    * An upsert goes through exactly for a well-shaped agent target with a device that is not static. It then replaces
    * the entry of that identifier in the overlay and nothing else, and the reloaded registry answers with the target.
    */
  lemma UpsertExactly(r: Registry, t: Target, order: seq<Target> -> seq<Target>)
    requires Consistent(r) && Sorting(order)
    ensures var (next, result) := UpsertStep(r, t, order);
            && Consistent(next) && next.staticTargets == r.staticTargets
            && (result.Ok? <==>
                WellShaped(t) && t.transport.Agent? && t.deviceId.Some? && !HasId(r.staticTargets, t.id))
            && (result.Ok? ==>
                && result.value == Some(t)
                && forall u :: u in next.overlay <==> u == t || (u in r.overlay && u.id != t.id))
            && (result.Err? ==> next == r)
  {
    UpsertedOverlay(r.overlay, t, order);
    if WellShaped(t) && t.transport.Agent? && t.deviceId.Some? && !HasId(r.staticTargets, t.id) {
      LoadsOverlay(r.staticTargets, order(Without(r.overlay, t.id) + [t]));
    }
  }

  /** What a consistent registry answers: a static target as the file has it, or the overlay's. */
  lemma LookupExactly(r: Registry, id: Text, t: Target)
    requires Consistent(r)
    ensures id in r.loaded.value && r.loaded.value[id] == t <==> t.id == id && (t in r.staticTargets || t in r.overlay)
  {
    InsertsExactly(map[], r.staticTargets, false);
    LoadsOverlay(r.staticTargets, r.overlay);
    if t in r.overlay {
      StaticIds(r.staticTargets, t.id);
    }
  }

  class TargetRegistry {
    const staticTargets: seq<Target>
    const order: seq<Target> -> seq<Target>
    var overlay: seq<Target>
    var loaded: Option<Table>

    ghost function Contents(): Registry
      reads this
    {
      Registry(staticTargets, overlay, loaded)
    }

    constructor (staticTargets: seq<Target>, overlay: seq<Target>, order: seq<Target> -> seq<Target>)
      ensures Contents() == Registry(staticTargets, overlay, None) && this.order == order
    {
      this.staticTargets := staticTargets;
      this.overlay := overlay;
      this.order := order;
      loaded := None;
    }

    method LoadRegistry() returns (r: Result<Table, LoadError>)
      modifies this`loaded
      ensures (Contents(), r) == LoadStep(old(Contents()))
    {
      var m: Table := map[];
      var i := 0;
      while i < |staticTargets|
        invariant 0 <= i <= |staticTargets| && loaded == old(loaded)
        invariant InsertAll(map[], staticTargets[..i], false) == Ok(m)
      {
        InsertPrefix(map[], staticTargets, i, false);
        var inserted := Insert(m, staticTargets[i], false);
        if inserted.Err? {
          InsertStops(map[], staticTargets, i + 1, false);
          return Err(inserted.error);
        }
        m := inserted.value;
        i := i + 1;
      }
      assert staticTargets[..i] == staticTargets;
      ghost var base := m;
      i := 0;
      while i < |overlay|
        invariant 0 <= i <= |overlay| && loaded == old(loaded)
        invariant InsertAll(base, overlay[..i], true) == Ok(m)
      {
        InsertPrefix(base, overlay, i, true);
        var inserted := Insert(m, overlay[i], true);
        if inserted.Err? {
          InsertStops(base, overlay, i + 1, true);
          return Err(inserted.error);
        }
        m := inserted.value;
        i := i + 1;
      }
      assert overlay[..i] == overlay;
      loaded := Some(m);
      r := Ok(m);
    }

    method UpsertDynamicAgentTarget(t: Target) returns (r: Result<Option<Target>, UpsertError>)
      modifies this
      ensures (Contents(), r) == UpsertStep(old(Contents()), t, order)
    {
      if !WellShaped(t) {
        return Err(SchemaRefused);
      }
      if !t.transport.Agent? || t.deviceId.None? {
        return Err(NotAnAgent);
      }
      if HasId(staticTargets, t.id) {
        return Err(StaticTarget);
      }
      overlay := order(Without(overlay, t.id) + [t]);
      var m := LoadRegistry();
      if m.Err? {
        return Err(LoadFailed(m.error));
      }
      r := Ok(Lookup(m.value, t.id));
    }
  }

  lemma InsertPrefix(m: Table, targets: seq<Target>, i: nat, dynamic: bool)
    requires i < |targets| && InsertAll(m, targets[..i], dynamic).Ok?
    ensures InsertAll(m, targets[..i + 1], dynamic)
            == Insert(InsertAll(m, targets[..i], dynamic).value, targets[i], dynamic)
  {
    assert targets[..i + 1][..i] == targets[..i];
  }

  /** A failure on a prefix is the failure of the whole. */
  lemma {:induction false} InsertStops(m: Table, targets: seq<Target>, i: nat, dynamic: bool)
    requires i <= |targets| && InsertAll(m, targets[..i], dynamic).Err?
    ensures InsertAll(m, targets, dynamic) == InsertAll(m, targets[..i], dynamic)
    decreases |targets|
  {
    if i == |targets| {
      assert targets[..i] == targets;
    } else {
      assert targets[..|targets| - 1][..i] == targets[..i];
      InsertStops(m, targets[..|targets| - 1], i, dynamic);
    }
  }
}
