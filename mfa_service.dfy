/** The orchestration facade for devices and challenges (internal/application/mfa_service.go).
    Every local admission check runs before the provider is called; `sent` lists the
    requests that reached the provider, so "no remote call" reads `sent == []`. */
module MfaService {
  import opened Wrappers
  import opened Domain
  import opened Stores
  import opened Repos
  import opened TrustPinClient
  import opened TrustPinAdapter

  const NonceTtl: int := 5 * Minute
  const ChallengeLifetime: int := 2 * Minute

  /** extractNonce: the `nonce` member of the decision payload, when it is a non-empty string. */
  function ExtractNonce(payload: Option<map<string, Json>>): (r: Option<string>)
    ensures r.Some? <==> (payload.Some? && "nonce" in payload.value
                          && payload.value["nonce"].Str? && payload.value["nonce"].s != "")
    ensures r.Some? ==> r.value != "" && payload.value["nonce"] == Str(r.value)
  {
    if payload.None? then None
    else if "nonce" in payload.value && payload.value["nonce"].Str? && payload.value["nonce"].s != "" then
      Some(payload.value["nonce"].s)
    else None
  }

  /** Device states only move forward along PENDING, PAIRING_PENDING, ACTIVE. */
  function Rank(state: string): int
  {
    if state == Pending then 0 else if state == PairingPending then 1 else if state == Active then 2 else -1
  }

  /** No existing device disappears, and none changes state except by one step forward. */
  ghost predicate Advances(before: map<string, Device>, after: map<string, Device>)
  {
    forall id | id in before :: id in after &&
      (after[id].state == before[id].state || Rank(after[id].state) == Rank(before[id].state) + 1)
  }

  /** The devices after a successful remote activation of `d`: `d` is ACTIVE, and a provider
      id differing from the local one gets an ACTIVE alias unless that id is taken in any tenant. */
  function Activated(devices: map<string, Device>, d: Device, localId: string, tenant: string,
                     userId: string, remoteId: string, now: int): map<string, Device>
  {
    var m := devices[localId := d.(state := Active, updatedAt := now)];
    if remoteId != "" && remoteId != localId && remoteId !in m then
      m[remoteId := Device(remoteId, tenant, userId, d.name, d.publicKey, Active, "", d.createdAt, now)]
    else m
  }

  class MfaService {
    const devices: DeviceRepo
    const challenges: ChallengeRepo
    const nonces: NonceStore
    const client: Client

    ghost predicate Valid()
      reads devices, challenges
    {
      devices.Valid() && challenges.Valid()
    }

    constructor (devices: DeviceRepo, challenges: ChallengeRepo, nonces: NonceStore, client: Client)
      requires devices.Valid() && challenges.Valid()
      ensures Valid()
      ensures this.devices == devices && this.challenges == challenges
      ensures this.nonces == nonces && this.client == client
    {
      this.devices := devices;
      this.challenges := challenges;
      this.nonces := nonces;
      this.client := client;
    }

    /** Creates the device as PENDING before calling the provider; a taken id fails
        `device_exists` with no remote call. Only a remote success moves the device to
        PAIRING_PENDING; a remote failure leaves it PENDING. */
    method Enroll(tenant: string, userId: string, req: EnrollRequest, now: int, network: Network)
      returns (r: Result<EnrollResponse, Failure>, sent: seq<Request>)
      requires Valid()
      modifies devices
      ensures Valid()
      ensures Advances(old(devices.devices), devices.devices)
      ensures req.deviceId in old(devices.devices) ==>
                r == Err(Plain("device_exists")) && sent == [] && devices.devices == old(devices.devices)
      ensures req.deviceId !in old(devices.devices) ==>
                && r == EnrollResult(client, req, network)
                && sent == Sent(client, "POST", EnrollPath, req.tenant, EnrollPayload(req), Some(EnrollFields), network)
                && devices.devices == old(devices.devices)[req.deviceId :=
                     Device(req.deviceId, tenant, userId, "", "", if r.Ok? then PairingPending else Pending, "", now, now)]
    {
      var d := Device(req.deviceId, tenant, userId, "", "", Pending, "", now, now);
      var err := devices.Create(d);
      if err.Fail? {
        return Err(err.error), [];
      }
      r, sent := TrustPinAdapter.Enroll(client, req, network);
      if r.Err? {
        return;
      }
      var updated := devices.UpdateState(tenant, d.id, PairingPending, now);
      assert updated == Pass;  // the device was created in this tenant just above
    }

    /** Admits only a device of the caller's tenant in state PAIRING_PENDING, else fails
        `invalid_state` with no remote call and no change. After a remote success the device
        is ACTIVE, plus an alias under a different provider id (a taken id is tolerated). */
    method Activate(tenant: string, userId: string, req: ActivateRequest, now: int, network: Network)
      returns (r: Result<ActivateResponse, Failure>, sent: seq<Request>)
      requires Valid()
      modifies devices
      ensures Valid()
      ensures Advances(old(devices.devices), devices.devices)
      ensures var d := VisibleDevice(old(devices.devices), tenant, req.deviceId);
              (d.None? || d.value.state != PairingPending) ==>
                r == Err(Plain("invalid_state")) && sent == [] && devices.devices == old(devices.devices)
      ensures var d := VisibleDevice(old(devices.devices), tenant, req.deviceId);
              (d.Some? && d.value.state == PairingPending) ==>
                && r == ActivateResult(client, req, network)
                && sent == Sent(client, "POST", ActivatePath, req.tenant, ActivatePayload(req), Some(ActivateFields), network)
                && devices.devices == if r.Err? then old(devices.devices)
                                      else Activated(old(devices.devices), d.value, req.deviceId, tenant, userId, r.value.deviceId, now)
    {
      var d := devices.GetById(tenant, req.deviceId);
      if d.None? || d.value.state != PairingPending {
        return Err(Plain("invalid_state")), [];
      }
      r, sent := TrustPinAdapter.Activate(client, req, network);
      if r.Err? {
        return;
      }
      var updated := devices.UpdateState(tenant, d.value.id, Active, now);
      assert updated == Pass;
      if r.value.deviceId != "" && r.value.deviceId != req.deviceId {
        var alias := Device(r.value.deviceId, tenant, userId, d.value.name, d.value.publicKey, Active, "", d.value.createdAt, now);
        var created := devices.Create(alias);
        // `device_exists` is ignored; the in-memory repository reports no other error.
        assert created.Pass? || created.error.Message() == "device_exists";
      }
    }

    /** Admits only an ACTIVE device of the caller's tenant, else `invalid_state` with no remote
        call. On remote success stores a challenge whose id and state come from the provider
        and which expires two minutes after issue. */
    method CreateChallenge(tenant: string, userId: string, req: ChallengeRequest, now: int, network: Network)
      returns (r: Result<ChallengeResponse, Failure>, sent: seq<Request>)
      requires Valid()
      modifies challenges
      ensures Valid()
      ensures var d := VisibleDevice(devices.devices, tenant, req.deviceId);
              (d.None? || d.value.state != Active) ==>
                r == Err(Plain("invalid_state")) && sent == [] && challenges.challenges == old(challenges.challenges)
      ensures var d := VisibleDevice(devices.devices, tenant, req.deviceId);
              (d.Some? && d.value.state == Active) ==>
                && r == ChallengeResult(client, req, network)
                && sent == Sent(client, "POST", ChallengePath, req.tenant, ChallengePayload(req), Some(ChallengeFields), network)
                && challenges.challenges == if r.Err? then old(challenges.challenges)
                   else old(challenges.challenges)[r.value.challengeId :=
                     Challenge(r.value.challengeId, tenant, userId, req.deviceId, req.action, r.value.state,
                               r.value.challengeId, now, now + ChallengeLifetime, now)]
    {
      var d := devices.GetById(tenant, req.deviceId);
      if d.None? || d.value.state != Active {
        return Err(Plain("invalid_state")), [];
      }
      r, sent := TrustPinAdapter.CreateChallenge(client, req, network);
      if r.Err? {
        return;
      }
      var c := Challenge(r.value.challengeId, tenant, userId, req.deviceId, req.action, r.value.state,
                         r.value.challengeId, now, now + ChallengeLifetime, now);
      var created := challenges.Create(c);
      assert created == Pass;
    }

    /** Checks, in this order and before any remote call: the challenge is the tenant's and in
        PUSH_SENT (`invalid_state`), the payload carries a nonce (`missing_nonce`), the nonce is
        fresh for the tenant (`nonce_reuse`). The nonce is then consumed whatever the provider
        answers; only a remote success moves the challenge to the provider's status, APPROVED. */
    method Approve(tenant: string, userId: string, req: ApproveRequest, now: int, network: Network)
      returns (r: Result<ApproveResponse, Failure>, sent: seq<Request>)
      requires Valid()
      modifies challenges, nonces
      ensures Valid()
      ensures var c := VisibleChallenge(old(challenges.challenges), tenant, req.challengeId);
              var nonce := ExtractNonce(req.payload);
              if c.None? || c.value.state != PushSent then
                r == Err(Plain("invalid_state")) && sent == []
                && challenges.challenges == old(challenges.challenges) && nonces.items == old(nonces.items)
              else if nonce.None? then
                r == Err(Plain("missing_nonce")) && sent == []
                && challenges.challenges == old(challenges.challenges) && nonces.items == old(nonces.items)
              else if !Fresh(old(nonces.items), ScopedKey(tenant, nonce.value), now) then
                r == Err(Plain("nonce_reuse")) && sent == []
                && challenges.challenges == old(challenges.challenges) && nonces.items == old(nonces.items)
              else
                && nonces.items == old(nonces.items)[ScopedKey(tenant, nonce.value) := now + NonceTtl]
                && r == ApproveResult(client, req, network)
                && sent == ApproveSent(client, req, network)
                && challenges.challenges == if r.Err? then old(challenges.challenges)
                   else old(challenges.challenges)[req.challengeId := c.value.(state := Approved, updatedAt := now)]
    {
      var c := challenges.GetById(tenant, req.challengeId);
      if c.None? || c.value.state != PushSent {
        return Err(Plain("invalid_state")), [];
      }
      var nonce := ExtractNonce(req.payload);
      if nonce.None? {
        return Err(Plain("missing_nonce")), [];
      }
      var accepted := nonces.CheckAndSet(tenant, nonce.value, NonceTtl, now);
      if !accepted {
        return Err(Plain("nonce_reuse")), [];
      }
      r, sent := TrustPinAdapter.Approve(client, req, network);
      if r.Err? {
        return;
      }
      var updated := challenges.UpdateState(tenant, req.challengeId, r.value.status, now);
      assert updated == Pass;
    }

    /** Two approvals of one challenge with the same payload, the second within the nonce
        lifetime: once the first has reached the provider, the second never does. It fails
        `invalid_state` after a first success and `nonce_reuse` after a first failure. */
    method ApproveTwice(tenant: string, userId: string, req: ApproveRequest,
                        now1: int, now2: int, network1: Network, network2: Network)
      returns (r1: Result<ApproveResponse, Failure>, sent1: seq<Request>,
               r2: Result<ApproveResponse, Failure>, sent2: seq<Request>)
      requires Valid()
      requires now1 <= now2 < now1 + NonceTtl
      modifies challenges, nonces
      ensures Valid()
      ensures sent1 != [] ==> r2.Err? && sent2 == []
      ensures r1.Ok? ==> r2 == Err(Plain("invalid_state"))
      ensures sent1 != [] && r1.Err? ==> r2 == Err(Plain("nonce_reuse"))
    {
      r1, sent1 := Approve(tenant, userId, req, now1, network1);
      r2, sent2 := Approve(tenant, userId, req, now2, network2);
    }

    /** A device whose remote enrollment failed stays PENDING, and enrolling it again fails
        `device_exists` without reaching the provider: the device cannot progress. */
    method EnrollAgainAfterRemoteFailure(tenant: string, userId: string, req: EnrollRequest,
                                         now1: int, now2: int, network1: Network, network2: Network)
      returns (r1: Result<EnrollResponse, Failure>, r2: Result<EnrollResponse, Failure>, sent2: seq<Request>)
      requires Valid()
      requires req.deviceId !in devices.devices
      modifies devices
      ensures Valid()
      ensures r1.Err? ==> r2 == Err(Plain("device_exists")) && sent2 == []
                          && req.deviceId in devices.devices && devices.devices[req.deviceId].state == Pending
    {
      var sent1;
      r1, sent1 := Enroll(tenant, userId, req, now1, network1);
      r2, sent2 := Enroll(tenant, userId, req, now2, network2);
    }
  }
}
