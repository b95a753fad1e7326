/** Records and request/response shapes shared by the MFA orchestration layer
    (internal/domain/types.go and internal/application/ports.go). */
module Domain {
  import opened Wrappers

  /** Times and durations are Go `time.Time` / `time.Duration` values, counted in nanoseconds. */
  const Millisecond: int := 1_000_000
  const Second: int := 1000 * Millisecond
  const Minute: int := 60 * Second

  /** A JSON-shaped Go value (`any` after encoding/json, or built by the code).
      `Opaque` stands for a Go value encoding/json cannot marshal (a channel, a func, NaN). */
  datatype Json =
    | Null
    | Bool(b: bool)
    | Num(n: int)
    | Str(s: string)
    | Arr(items: seq<Json>)
    | Obj(fields: map<string, Json>)
    | Opaque

  /** json.Marshal succeeds exactly on values that contain no `Opaque` part. */
  predicate Encodable(v: Json)
  {
    match v
    case Opaque => false
    case Arr(xs) => forall i | 0 <= i < |xs| :: Encodable(xs[i])
    case Obj(m) => forall k | k in m :: Encodable(m[k])
    case _ => true
  }

  /** The errors the core produces or passes along. */
  datatype Failure =
    | Plain(msg: string)                  // errors.New / fmt.Errorf
    | UrlError(op: string, url: string, cause: string)
                                          // *url.Error: a failed exchange (Op "Post") or a URL that does not parse (Op "parse")
    | Provider(status: int, body: string) // *trustpin.Error: a non-2xx provider reply
    | Malformed(cause: string)            // an encoding/json marshal or unmarshal error
  {
    /** Go's `err.Error()`. */
    function Message(): (m: string)
      ensures Provider? ==> m == "trustpin_error"
      ensures Malformed? ==> |m| > 0 && m[0] == 'j'
      ensures UrlError? ==> |m| > |op| && m[..|op|] == op && '"' in m
    {
      match this
      case Plain(msg) => msg
      case UrlError(op, url, cause) => op + " \"" + url + "\": " + cause
      case Provider(_, _) => "trustpin_error"
      case Malformed(cause) => "json: " + cause
    }
  }

  // Device lifecycle states.
  const Pending := "PENDING"
  const PairingPending := "PAIRING_PENDING"
  const Active := "ACTIVE"

  // Challenge states the core looks at.
  const PushSent := "PUSH_SENT"
  const Approved := "APPROVED"

  datatype User = User(id: string, tenant: string, username: string, status: string, createdAt: int)

  datatype Session = Session(
    id: string, tenant: string, userId: string, jwtId: string,
    expiresAt: int, revokedAt: Option<int>)

  datatype Device = Device(
    id: string, tenant: string, userId: string, name: string, publicKey: string,
    state: string, enrollId: string, createdAt: int, updatedAt: int)

  datatype Challenge = Challenge(
    id: string, tenant: string, userId: string, deviceId: string, action: string,
    state: string, providerId: string, issuedAt: int, expiresAt: int, updatedAt: int)

  // Requests and responses exchanged with the provider adapter (ports.go).
  // A Go map that may be nil is an Option of a map.

  datatype EnrollRequest = EnrollRequest(tenant: string, userId: string, deviceId: string)
  datatype EnrollResponse = EnrollResponse(enrollmentId: string, pairingCode: string, expiresAt: string)

  datatype ActivateRequest = ActivateRequest(
    tenant: string, userId: string, deviceId: string,
    pairingCode: string, publicKey: string, deviceLabel: string)
  datatype ActivateResponse = ActivateResponse(deviceId: string, state: string)

  datatype ChallengeRequest = ChallengeRequest(
    tenant: string, userId: string, deviceId: string, action: string,
    context: Option<map<string, Json>>)
  datatype ChallengeResponse = ChallengeResponse(
    challengeId: string, state: string, issuedAt: string, expiresAt: string)

  datatype ApproveRequest = ApproveRequest(
    tenant: string, userId: string, deviceId: string, challengeId: string,
    signature: string, payload: Option<map<string, Json>>, totpCode: string)
  datatype ApproveResponse = ApproveResponse(challengeId: string, status: string)
}
