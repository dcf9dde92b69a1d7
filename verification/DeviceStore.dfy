/**
  * Pairings and devices of the store: created under capacity limits, approved by code, claimed by poll token. Functions
  * on values say what each operation does to memory and file; the class performs them on fields.
  */
module DeviceStore {
  import opened Wrappers

  const CREATE_GRACE_MS := 3600000
  const PAIRING_RETENTION_MS := 24 * 3600000

  datatype Meta = Meta(hostname: string, os: Option<string>, agentVersion: Option<string>, fingerprint: Option<string>)

  datatype Pairing = Pairing(
    codeHash: Digest, pollHash: Digest, createdAt: int, expiresAt: int, meta: Meta,
    approvedAt: Option<int>, claimedAt: Option<int>, deviceId: Option<string>)

  datatype Device = Device(
    meta: Meta, capabilities: Option<seq<string>>, credentialHash: Digest, createdAt: int, lastSeenAt: Option<int>,
    revokedAt: Option<int>)

  type Pairings = map<string, Pairing>
  type Devices = map<string, Device>

  datatype State = State(pairings: Pairings, devices: Devices)

  const EMPTY := State(map[], map[])

  /** Memory and the file. */
  datatype Store = Store(mem: State, disk: State)

  function Saved(st: Store, mem: State, write: bool): Store {
    Store(mem, if write then mem else st.disk)
  }

  /** `normalize` strips and upper-cases a typed code; `hmac` is keyed hashing. */
  datatype Config = Config(
    normalize: string -> string, hmac: (string, string) -> string, ttlMs: int, maxDevices: int, maxPending: int)

  datatype Draw = Draw(pairingId: string, pollToken: string, code: string)

  datatype CreateError = DevicesFull | PairingsFull

  datatype ClaimResult = Invalid | Expired | Unapproved | Paired(deviceId: string, token: string)

  predicate Claimable(p: Pairing, now: int) {
    p.claimedAt.None? && p.expiresAt >= now
  }

  function ClaimableIds(pairings: Pairings, now: int): set<string> {
    set id | id in pairings && Claimable(pairings[id], now)
  }

  function ActiveDevices(devices: Devices): set<string> {
    set id | id in devices && devices[id].revokedAt.None?
  }

  /** Never claimed, and expired an hour ago. */
  predicate Lapsed(p: Pairing, now: int) {
    p.claimedAt.None? && p.expiresAt + CREATE_GRACE_MS < now
  }

  function DropLapsed(pairings: Pairings, now: int): Pairings {
    map id | id in pairings && !Lapsed(pairings[id], now) :: pairings[id]
  }

  function CodeHash(code: string, cfg: Config): Digest {
    Sha256(cfg.normalize(code))
  }

  /** The test under which a fresh code is drawn again. */
  predicate Collides(pairings: Pairings, code: string, now: int, cfg: Config) {
    exists id | id in pairings ::
      pairings[id].codeHash == CodeHash(code, cfg) && pairings[id].expiresAt > now && pairings[id].claimedAt.None?
  }

  function NewPairing(meta: Meta, draw: Draw, now: int, cfg: Config): Pairing {
    Pairing(CodeHash(draw.code, cfg), Sha256(draw.pollToken), now, now + cfg.ttlMs, meta, None, None, None)
  }

  /** The draw at which redrawing stops. */
  function FirstFree(pairings: Pairings, codes: seq<string>, now: int, cfg: Config): (code: string)
    requires exists i | 0 <= i < |codes| :: !Collides(pairings, codes[i], now, cfg)
    ensures !Collides(pairings, code, now, cfg) && code in codes
  {
    if !Collides(pairings, codes[0], now, cfg) then codes[0] else FirstFree(pairings, codes[1..], now, cfg)
  }

  predicate HasRoom(devices: Devices, pairings: Pairings, now: int, cfg: Config) {
    |ActiveDevices(devices)| < cfg.maxDevices && |ClaimableIds(pairings, now)| < cfg.maxPending
  }

  /** Lapsed pairings are gone from memory even if a limit refuses the new one. */
  function CreateStep(s: State, meta: Meta, draw: Draw, now: int, cfg: Config): (State, Result<Draw, CreateError>) {
    var kept := DropLapsed(s.pairings, now);
    if |ActiveDevices(s.devices)| >= cfg.maxDevices then (s.(pairings := kept), Err(DevicesFull))
    else if |ClaimableIds(kept, now)| >= cfg.maxPending then (s.(pairings := kept), Err(PairingsFull))
    else (s.(pairings := kept[draw.pairingId := NewPairing(meta, draw, now, cfg)]), Ok(draw))
  }

  predicate Answers(p: Pairing, code: string, now: int, cfg: Config) {
    p.codeHash == CodeHash(code, cfg) && Claimable(p, now)
  }

  function ApproveStep(s: State, id: string, now: int): State
    requires id in s.pairings
  {
    s.(pairings := s.pairings[id := s.pairings[id].(approvedAt := Some(now))])
  }

  function DeviceToken(deviceId: string, pollToken: string, cfg: Config): string {
    "wdv_" + deviceId + "." + cfg.hmac(pollToken, deviceId)
  }

  function NewDevice(meta: Meta, token: string, now: int): Device {
    Device(meta, None, Sha256(token), now, None, None)
  }

  /** The claim is in time, of an approved pairing without a device: it makes one. */
  predicate Creates(s: State, pairingId: string, pollToken: string, now: int) {
    && pairingId in s.pairings && s.pairings[pairingId].pollHash == Sha256(pollToken)
    && now <= s.pairings[pairingId].expiresAt && s.pairings[pairingId].approvedAt.Some?
    && (s.pairings[pairingId].deviceId.Some? ==> s.pairings[pairingId].deviceId.value !in s.devices)
  }

  function ClaimStep(s: State, pairingId: string, pollToken: string, newId: string, now: int, cfg: Config)
    : (State, ClaimResult)
  {
    if pairingId !in s.pairings || s.pairings[pairingId].pollHash != Sha256(pollToken) then (s, Invalid) else
    var p := s.pairings[pairingId];
    if p.expiresAt < now then (s, Expired)
    else if p.approvedAt.None? then (s, Unapproved)
    else if p.deviceId.Some? && p.deviceId.value in s.devices then
      (s, Paired(p.deviceId.value, DeviceToken(p.deviceId.value, pollToken, cfg)))
    else
      var token := DeviceToken(newId, pollToken, cfg);
      (State(s.pairings[pairingId := p.(deviceId := Some(newId), claimedAt := Some(now))],
             s.devices[newId := NewDevice(p.meta, token, now)]),
       Paired(newId, token))
  }

  predicate Bears(d: Device, token: string) {
    d.credentialHash == Sha256(token) && d.revokedAt.None?
  }

  /** Each element once, where it first stands. */
  function Distinct(s: seq<string>): (r: seq<string>)
    ensures forall x :: x in r <==> x in s
    ensures forall i, j | 0 <= i < j < |r| :: r[i] != r[j]
  {
    if s == [] then []
    else
      var init, last := Distinct(s[..|s| - 1]), s[|s| - 1];
      assert s == s[..|s| - 1] + [last];
      if last in init then init else init + [last]
  }

  function Capabilities(sent: seq<string>): seq<string> {
    if |Distinct(sent)| <= 64 then Distinct(sent) else Distinct(sent)[..64]
  }

  /** What an agent reports of itself; an empty version counts as none. */
  datatype Report = Report(version: Option<string>, capabilities: Option<seq<string>>)

  function Beaten(d: Device, report: Report, now: int): Device {
    d.(lastSeenAt := Some(now),
       meta := if report.version.Some? && report.version.value != "" then d.meta.(agentVersion := report.version)
               else d.meta,
       capabilities := if report.capabilities.Some? then Some(Capabilities(report.capabilities.value))
                       else d.capabilities)
  }

  function HeartbeatStep(s: State, id: string, report: Report, now: int): State {
    if id in s.devices && s.devices[id].revokedAt.None?
    then s.(devices := s.devices[id := Beaten(s.devices[id], report, now)]) else s
  }

  function RevokeDeviceStep(s: State, id: string, now: int): State {
    if id in s.devices && s.devices[id].revokedAt.None?
    then s.(devices := s.devices[id := s.devices[id].(revokedAt := Some(now))]) else s
  }

  /** Claimed, or else expired, a day ago. */
  predicate Old(p: Pairing, now: int) {
    p.claimedAt.GetOr(p.expiresAt) + PAIRING_RETENTION_MS < now
  }

  function DropOld(pairings: Pairings, now: int): Pairings {
    map id | id in pairings && !Old(pairings[id], now) :: pairings[id]
  }

  /** Redrawing from draw i on ends where redrawing from the start does. */
  ghost predicate FreeFrom(pairings: Pairings, codes: seq<string>, i: nat, now: int, cfg: Config) {
    && (exists k | 0 <= k < |codes| :: !Collides(pairings, codes[k], now, cfg))
    && i <= |codes| && (exists k | 0 <= k < |codes[i..]| :: !Collides(pairings, codes[i..][k], now, cfg))
    && FirstFree(pairings, codes, now, cfg) == FirstFree(pairings, codes[i..], now, cfg)
  }

  /* Memory and file together. */

  function CreateStore(st: Store, meta: Meta, draw: Draw, now: int, cfg: Config): (Store, Result<Draw, CreateError>) {
    var (mem, r) := CreateStep(st.mem, meta, draw, now, cfg);
    (Saved(st, mem, r.Ok?), r)
  }

  function ApproveStore(st: Store, id: string, now: int): Store
    requires id in st.mem.pairings
  {
    Saved(st, ApproveStep(st.mem, id, now), true)
  }

  /** A repeated claim writes nothing. */
  function ClaimStore(st: Store, pairingId: string, pollToken: string, newId: string, now: int, cfg: Config)
    : (Store, ClaimResult)
  {
    var (mem, r) := ClaimStep(st.mem, pairingId, pollToken, newId, now, cfg);
    (Saved(st, mem, Creates(st.mem, pairingId, pollToken, now)), r)
  }

  function HeartbeatStore(st: Store, id: string, report: Report, now: int): Store {
    Saved(st, HeartbeatStep(st.mem, id, report, now), id in ActiveDevices(st.mem.devices))
  }

  function RevokeStore(st: Store, id: string, now: int): Store {
    Saved(st, RevokeDeviceStep(st.mem, id, now), id in st.mem.devices)
  }

  /** `elsewhere`: the same collection also dropped something other than pairings. */
  function PurgeStore(st: Store, now: int, elsewhere: bool): Store {
    var mem := st.mem.(pairings := DropOld(st.mem.pairings, now));
    Saved(st, mem, elsewhere || mem != st.mem)
  }

  /** A new process reads the file and collects in memory only. */
  function RestartStore(st: Store, now: int): Store {
    Store(st.disk.(pairings := DropOld(st.disk.pairings, now)), st.disk)
  }

  class Registry {
    var pairings: Pairings
    var devices: Devices
    var disk: State
    const cfg: Config

    ghost function Contents(): Store
      reads this
    {
      Store(State(pairings, devices), disk)
    }

    constructor (cfg: Config)
      ensures Contents() == Store(EMPTY, EMPTY) && this.cfg == cfg
    {
      this.cfg := cfg;
      pairings, devices, disk := map[], map[], EMPTY;
    }

    method WriteFile()
      modifies this`disk
      ensures disk == Contents().mem
    {
      disk := State(pairings, devices);
    }

    method DropLapsedPairings(now: int)
      modifies this`pairings
      ensures pairings == DropLapsed(old(pairings), now)
    {
      var ids := pairings.Keys;
      while ids != {}
        invariant ids <= old(pairings).Keys
        invariant pairings == map id |
                    id in old(pairings) &&
                    (id in ids || !Lapsed(old(pairings)[id], now)) :: old(pairings)[id]
        decreases ids
      {
        var id :| id in ids;
        if Lapsed(pairings[id], now) {
          pairings := pairings - {id};
        }
        ids := ids - {id};
      }
    }

    /** `codes` are the successive draws; when it comes to drawing, one of them is free. */
    method CreatePairing(meta: Meta, pairingId: string, pollToken: string, codes: seq<string>, now: int)
      returns (r: Result<Draw, CreateError>)
      requires HasRoom(devices, DropLapsed(pairings, now), now, cfg) ==>
                 exists i | 0 <= i < |codes| :: !Collides(DropLapsed(pairings, now), codes[i], now, cfg)
      modifies this
      ensures var kept := DropLapsed(old(pairings), now);
              var code := if HasRoom(old(devices), kept, now, cfg) then FirstFree(kept, codes, now, cfg) else "";
              (Contents(), r) == CreateStore(old(Contents()), meta, Draw(pairingId, pollToken, code), now, cfg)
    {
      DropLapsedPairings(now);
      if |ActiveDevices(devices)| >= cfg.maxDevices {
        return Err(DevicesFull);
      }
      if |ClaimableIds(pairings, now)| >= cfg.maxPending {
        return Err(PairingsFull);
      }
      var i := 0;
      assert codes[0..] == codes;
      while Collides(pairings, codes[i], now, cfg)
        invariant 0 <= i < |codes| && exists k | i <= k < |codes| :: !Collides(pairings, codes[k], now, cfg)
        invariant FreeFrom(pairings, codes, i, now, cfg)
        decreases |codes| - i
      {
        assert codes[i..][1..] == codes[i + 1..];
        i := i + 1;
      }
      var draw := Draw(pairingId, pollToken, codes[i]);
      pairings := pairings[pairingId := NewPairing(meta, draw, now, cfg)];
      WriteFile();
      r := Ok(draw);
    }

    /** Approves a pairing that answers to the code, if there is one. */
    method ApprovePairingByCode(code: string, now: int) returns (r: Option<string>)
      modifies this
      ensures r.Some? ==> r.value in old(pairings) && Answers(old(pairings)[r.value], code, now, cfg)
                          && Contents() == ApproveStore(old(Contents()), r.value, now)
      ensures r.None? ==> Contents() == old(Contents())
                          && forall id | id in pairings :: !Answers(pairings[id], code, now, cfg)
    {
      var ids := pairings.Keys;
      while ids != {}
        invariant ids <= pairings.Keys
        invariant Contents() == old(Contents())
        invariant forall id | id in pairings && id !in ids :: !Answers(pairings[id], code, now, cfg)
        decreases ids
      {
        var id :| id in ids;
        if Answers(pairings[id], code, now, cfg) {
          pairings := pairings[id := pairings[id].(approvedAt := Some(now))];
          WriteFile();
          return Some(id);
        }
        ids := ids - {id};
      }
      r := None;
    }

    method ClaimPairing(pairingId: string, pollToken: string, newId: string, now: int) returns (r: ClaimResult)
      modifies this
      ensures (Contents(), r) == ClaimStore(old(Contents()), pairingId, pollToken, newId, now, cfg)
    {
      if pairingId !in pairings || pairings[pairingId].pollHash != Sha256(pollToken) {
        return Invalid;
      }
      var p := pairings[pairingId];
      if p.expiresAt < now {
        return Expired;
      }
      if p.approvedAt.None? {
        return Unapproved;
      }
      if p.deviceId.Some? && p.deviceId.value in devices {
        return Paired(p.deviceId.value, DeviceToken(p.deviceId.value, pollToken, cfg));
      }
      var token := DeviceToken(newId, pollToken, cfg);
      devices := devices[newId := NewDevice(p.meta, token, now)];
      pairings := pairings[pairingId := p.(deviceId := Some(newId), claimedAt := Some(now))];
      WriteFile();
      r := Paired(newId, token);
    }

    /** The device whose credential the token is, if it is not revoked. */
    method AuthenticateDeviceToken(token: string) returns (r: Option<string>)
      ensures r.Some? ==> r.value in devices && Bears(devices[r.value], token)
      ensures r.None? ==> forall id | id in devices :: !Bears(devices[id], token)
    {
      var ids := devices.Keys;
      while ids != {}
        invariant ids <= devices.Keys
        invariant forall id | id in devices && id !in ids :: !Bears(devices[id], token)
        decreases ids
      {
        var id :| id in ids;
        if Bears(devices[id], token) {
          return Some(id);
        }
        ids := ids - {id};
      }
      r := None;
    }

    method TouchDeviceHeartbeat(id: string, report: Report, now: int) returns (ok: bool)
      modifies this
      ensures Contents() == HeartbeatStore(old(Contents()), id, report, now)
      ensures ok <==> id in ActiveDevices(old(devices))
    {
      ok := id in devices && devices[id].revokedAt.None?;
      if ok {
        devices := devices[id := Beaten(devices[id], report, now)];
        WriteFile();
      }
    }

    method RevokeDevice(id: string, now: int) returns (ok: bool)
      modifies this
      ensures Contents() == RevokeStore(old(Contents()), id, now)
      ensures ok <==> id in old(devices)
    {
      ok := id in devices;
      if ok {
        if devices[id].revokedAt.None? {
          devices := devices[id := devices[id].(revokedAt := Some(now))];
        }
        WriteFile();
      }
    }

    method DropOldPairings(now: int) returns (changed: bool)
      modifies this`pairings
      ensures pairings == DropOld(old(pairings), now)
      ensures changed <==> pairings != old(pairings)
    {
      var ids := pairings.Keys;
      changed := false;
      while ids != {}
        invariant ids <= old(pairings).Keys
        invariant pairings == map id |
                    id in old(pairings) && (id in ids || !Old(old(pairings)[id], now)) :: old(pairings)[id]
        invariant changed <==> exists id | id in old(pairings) :: id !in ids && Old(old(pairings)[id], now)
        decreases ids
      {
        var id :| id in ids;
        if Old(pairings[id], now) {
          pairings := pairings - {id};
          changed := true;
        }
        ids := ids - {id};
      }
      if changed {
        ghost var id :| id in old(pairings) && Old(old(pairings)[id], now);
        assert id !in pairings;
      }
    }

    method PurgePairings(now: int, elsewhere: bool)
      modifies this
      ensures Contents() == PurgeStore(old(Contents()), now, elsewhere)
    {
      var changed := DropOldPairings(now);
      if changed || elsewhere {
        WriteFile();
      }
    }

    method Restart(now: int)
      modifies this
      ensures Contents() == RestartStore(old(Contents()), now)
    {
      pairings, devices := disk.pairings, disk.devices;
      var _ := DropOldPairings(now);
    }
  }
}
