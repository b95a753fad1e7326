/** The provider adapter (internal/adapters/trustpin/adapter.go): each operation builds a
    JSON payload, makes one client call under the request's tenant and maps the decoded
    reply into a response record. It keeps no state. */
module TrustPinAdapter {
  import opened Wrappers
  import opened Domain
  import opened TrustPinClient

  /** A Go map that may be nil, as encoding/json writes it. */
  function MapJson(m: Option<map<string, Json>>): Json
  {
    if m.None? then Null else Obj(m.value)
  }

  /** An `omitempty` string member: left out when empty. */
  function OptionalText(name: string, v: string): map<string, Json>
  {
    if v == "" then map[] else map[name := Str(v)]
  }

  /** The result of a client call, with the decoded struct mapped by `f`; client errors pass unchanged. */
  function MapReply<T>(r: Result<map<string, string>, Failure>, f: map<string, string> -> T): (m: Result<T, Failure>)
    ensures r.Err? ==> m == Err(r.error)
    ensures r.Ok? ==> m == Ok(f(r.value))
  {
    match r
    case Err(e) => Err(e)
    case Ok(v) => Ok(f(v))
  }

  function Text(m: map<string, string>, name: string): string
  {
    if name in m then m[name] else ""
  }

  // Enroll: POST /v1/enrollments/init

  const EnrollPath := "/v1/enrollments/init"
  const EnrollFields := ["enrollment_id", "pairing_code", "expires_at"]

  /** Only the tenant and user reach the provider; the device id stays local. */
  function EnrollPayload(req: EnrollRequest): Json
  {
    Obj(map["tenant_id" := Str(req.tenant), "user_id" := Str(req.userId)])
  }

  function EnrollResult(c: Client, req: EnrollRequest, network: Network): Result<EnrollResponse, Failure>
  {
    MapReply(Call(c, "POST", EnrollPath, EnrollPayload(req), Some(EnrollFields), network).result,
             m => EnrollResponse(Text(m, "enrollment_id"), Text(m, "pairing_code"), Text(m, "expires_at")))
  }

  method Enroll(c: Client, req: EnrollRequest, network: Network)
    returns (r: Result<EnrollResponse, Failure>, sent: seq<Request>)
    ensures r == EnrollResult(c, req, network)
    ensures sent == Sent(c, "POST", EnrollPath, req.tenant, EnrollPayload(req), Some(EnrollFields), network)
  {
    var out;
    out, sent := Do(c, "POST", EnrollPath, req.tenant, EnrollPayload(req), Some(EnrollFields), network);
    match out
    case Err(e) => r := Err(e);
    case Ok(m) => r := Ok(EnrollResponse(Text(m, "enrollment_id"), Text(m, "pairing_code"), Text(m, "expires_at")));
  }

  /** What Enroll sends and returns does not depend on the device id. */
  lemma EnrollIgnoresDeviceId(c: Client, req: EnrollRequest, other: string, network: Network)
    ensures EnrollPayload(req.(deviceId := other)) == EnrollPayload(req)
    ensures EnrollResult(c, req.(deviceId := other), network) == EnrollResult(c, req, network)
  {
  }

  // Activate: POST /v1/devices/activate

  const ActivatePath := "/v1/devices/activate"
  const ActivateFields := ["device_id", "state"]

  function ActivatePayload(req: ActivateRequest): Json
  {
    Obj(map["pairing_code" := Str(req.pairingCode), "public_key" := Str(req.publicKey)]
        + OptionalText("label", req.deviceLabel))
  }

  function ActivateResult(c: Client, req: ActivateRequest, network: Network): Result<ActivateResponse, Failure>
  {
    MapReply(Call(c, "POST", ActivatePath, ActivatePayload(req), Some(ActivateFields), network).result,
             m => ActivateResponse(Text(m, "device_id"), Text(m, "state")))
  }

  method Activate(c: Client, req: ActivateRequest, network: Network)
    returns (r: Result<ActivateResponse, Failure>, sent: seq<Request>)
    ensures r == ActivateResult(c, req, network)
    ensures sent == Sent(c, "POST", ActivatePath, req.tenant, ActivatePayload(req), Some(ActivateFields), network)
  {
    var out;
    out, sent := Do(c, "POST", ActivatePath, req.tenant, ActivatePayload(req), Some(ActivateFields), network);
    match out
    case Err(e) => r := Err(e);
    case Ok(m) => r := Ok(ActivateResponse(Text(m, "device_id"), Text(m, "state")));
  }

  // CreateChallenge: POST /v1/auth/challenges/init

  const ChallengePath := "/v1/auth/challenges/init"
  const ChallengeFields := ["challenge_id", "state", "issued_at", "expires_at"]

  function ChallengePayload(req: ChallengeRequest): Json
  {
    Obj(map["tenant_id" := Str(req.tenant), "user_id" := Str(req.userId),
            "device_id" := Str(req.deviceId), "action" := Str(req.action)]
        + (if req.context.None? || req.context.value == map[] then map[] else map["context" := Obj(req.context.value)]))
  }

  function ChallengeResult(c: Client, req: ChallengeRequest, network: Network): Result<ChallengeResponse, Failure>
  {
    MapReply(Call(c, "POST", ChallengePath, ChallengePayload(req), Some(ChallengeFields), network).result,
             m => ChallengeResponse(Text(m, "challenge_id"), Text(m, "state"), Text(m, "issued_at"), Text(m, "expires_at")))
  }

  method CreateChallenge(c: Client, req: ChallengeRequest, network: Network)
    returns (r: Result<ChallengeResponse, Failure>, sent: seq<Request>)
    ensures r == ChallengeResult(c, req, network)
    ensures sent == Sent(c, "POST", ChallengePath, req.tenant, ChallengePayload(req), Some(ChallengeFields), network)
  {
    var out;
    out, sent := Do(c, "POST", ChallengePath, req.tenant, ChallengePayload(req), Some(ChallengeFields), network);
    match out
    case Err(e) => r := Err(e);
    case Ok(m) => r := Ok(ChallengeResponse(Text(m, "challenge_id"), Text(m, "state"), Text(m, "issued_at"), Text(m, "expires_at")));
  }

  // Approve: POST /v1/auth/challenges/{id}/approve, reply body not decoded

  function ApprovePath(req: ApproveRequest): string
  {
    "/v1/auth/challenges/" + req.challengeId + "/approve"
  }

  function ApprovePayload(req: ApproveRequest): Json
  {
    Obj(map["device_id" := Str(req.deviceId), "signature" := Str(req.signature),
            "payload" := MapJson(req.payload)]
        + OptionalText("totp_code", req.totpCode))
  }

  /** An empty challenge id is refused before any call; a successful call always reports
      APPROVED for the requested challenge, whatever the provider replied. */
  function ApproveResult(c: Client, req: ApproveRequest, network: Network): (r: Result<ApproveResponse, Failure>)
    ensures req.challengeId == "" ==> r == Err(Plain("missing_challenge_id"))
    ensures r.Ok? ==> r.value == ApproveResponse(req.challengeId, Approved)
    ensures req.challengeId != "" && Call(c, "POST", ApprovePath(req), ApprovePayload(req), None, network).result.Err?
            ==> r == Err(Call(c, "POST", ApprovePath(req), ApprovePayload(req), None, network).result.error)
  {
    if req.challengeId == "" then Err(Plain("missing_challenge_id"))
    else MapReply(Call(c, "POST", ApprovePath(req), ApprovePayload(req), None, network).result, _ => ApproveResponse(req.challengeId, Approved))
  }

  /** The requests Approve sends: none for an empty challenge id. */
  function ApproveSent(c: Client, req: ApproveRequest, network: Network): seq<Request>
  {
    if req.challengeId == "" then [] else Sent(c, "POST", ApprovePath(req), req.tenant, ApprovePayload(req), None, network)
  }

  method Approve(c: Client, req: ApproveRequest, network: Network)
    returns (r: Result<ApproveResponse, Failure>, sent: seq<Request>)
    ensures r == ApproveResult(c, req, network)
    ensures sent == ApproveSent(c, req, network)
  {
    if req.challengeId == "" {
      return Err(Plain("missing_challenge_id")), [];
    }
    var out;
    out, sent := Do(c, "POST", ApprovePath(req), req.tenant, ApprovePayload(req), None, network);
    if out.Err? {
      return Err(out.error), sent;
    }
    r := Ok(ApproveResponse(req.challengeId, Approved));
  }
}
