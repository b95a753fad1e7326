/** The HTTP handlers of the MFA and login routes (internal/transport/http/mfa.go and
    internal/transport/http/auth.go). A request arrives already decoded: its method, its
    body as the request struct (None when JSON decoding fails), its Idempotency-Key header
    and the tenant and user the middleware stored in the context. A response is a status
    and an optional JSON body (None for a bare status line). */
module HttpTransport {
  import opened Wrappers
  import opened Domain
  import opened GoStrings
  import opened Stores
  import opened Repos
  import opened TrustPinClient
  import opened TrustPinAdapter
  import Mfa = MfaService
  import Auth = AuthService
  import Middleware

  const StatusOK: int := 200
  const StatusMethodNotAllowed: int := 405
  const IdempotencyTtl: int := 5 * Minute

  /** AppError: status, code, message and the optional diagnostic detail (the provider's
      raw body, or nothing). */
  datatype AppError = AppError(status: int, code: string, message: string, details: Option<string>)

  datatype Response = Response(status: int, body: Option<Json>)

  /** The status each error code is served with (the service's error taxonomy). */
  function StatusOfCode(code: string): int
  {
    if code == "bad_request" then 400
    else if code == "invalid_credentials" then 401
    else if code == "not_found" then 404
    else if code == "invalid_state" || code == "nonce_reuse" then 409
    else if code == "expired" then 410
    else if code == "invalid_signature" then 422
    else if code == "rate_limited" then 429
    else if code == "trustpin_error" then 502
    else if code == "push_failed" then 503
    else 500
  }

  /** mapError: a provider reply is classified by its status and keeps its body as
      detail; other errors are classified by their message, without detail. No failure is
      ever served as a success. */
  function MapError(err: Failure): (e: AppError)
    ensures 400 <= e.status <= 599
    ensures e.status == StatusOfCode(e.code)
    ensures e.details.Some? <==> err.Provider?
    ensures err.Provider? ==> e.details == Some(err.body)
    ensures err.Provider? && err.status in {400, 404, 409, 410, 429, 503} ==> e.status == err.status
    ensures err.Provider? && err.status == 412 ==> e.status == 422 && e.code == "invalid_signature"
    ensures err.Provider? && err.status !in {400, 404, 409, 410, 412, 429, 503} ==>
              e == AppError(502, "trustpin_error", "upstream_error", Some(err.body))
    ensures !err.Provider? ==>
              e.status == (if err.Message() in {"nonce_reuse", "invalid_state"} then 409
                           else if err.Message() == "missing_nonce" then 400 else 500)
  {
    match err
    case Provider(status, body) =>
      if status == 400 then AppError(400, "bad_request", "invalid_payload", Some(body))
      else if status == 404 then AppError(404, "not_found", "not_found", Some(body))
      else if status == 409 then AppError(409, "invalid_state", "invalid_state", Some(body))
      else if status == 410 then AppError(410, "expired", "expired", Some(body))
      else if status == 412 then AppError(422, "invalid_signature", "signature_mismatch", Some(body))
      else if status == 429 then AppError(429, "rate_limited", "rate_limited", Some(body))
      else if status == 503 then AppError(503, "push_failed", "push_failed", Some(body))
      else AppError(502, "trustpin_error", "upstream_error", Some(body))
    case _ =>
      var m := err.Message();
      if m == "nonce_reuse" then AppError(409, "nonce_reuse", "nonce_reuse", None)
      else if m == "invalid_state" then AppError(409, "invalid_state", "invalid_state", None)
      else if m == "missing_nonce" then AppError(400, "bad_request", "missing_nonce", None)
      else AppError(500, "server_error", "internal_error", None)
  }

  /** Serialisation failures, failed exchanges and unparsable URLs, and the local errors other
      than the three classified ones (`device_exists`, `retry_exhausted`, `missing_challenge_id`,
      ...) are served as 500. */
  lemma UnclassifiedErrorsAreServerErrors(err: Failure)
    requires err.Malformed? || err.UrlError? || (err.Plain? && err.msg !in {"nonce_reuse", "invalid_state", "missing_nonce"})
    ensures MapError(err) == AppError(500, "server_error", "internal_error", None)
  {
    if err.UrlError? {
      assert '"' in err.Message();
      assert '"' !in "nonce_reuse" && '"' !in "invalid_state" && '"' !in "missing_nonce";
    } else if err.Malformed? {
      assert err.Message()[0] == 'j';
      assert err.Message() != "nonce_reuse" && err.Message() != "invalid_state" && err.Message() != "missing_nonce" by {
        assert "nonce_reuse"[0] != 'j' && "invalid_state"[0] != 'j' && "missing_nonce"[0] != 'j';
      }
    }
  }

  /** writeError's body: code, message and details (null when there are none). */
  function ErrorResponse(e: AppError): (r: Response)
    ensures r.status == e.status && r.body.Some? && r.body.value.Obj?
    ensures r.body.value.fields.Keys == {"code", "message", "details"}
  {
    Response(e.status, Some(Obj(map[
      "code" := Str(e.code),
      "message" := Str(e.message),
      "details" := if e.details.Some? then Str(e.details.value) else Null])))
  }

  function BadRequest(message: string): AppError
  {
    AppError(400, "bad_request", message, None)
  }

  /** The response for a service result: 200 with the result's JSON, or the mapped error. */
  function Render<T>(r: Result<T, Failure>, toJson: T -> Json): (resp: Response)
    ensures resp.status == StatusOK <==> r.Ok?
    ensures r.Ok? ==> resp.body == Some(toJson(r.value))
    ensures r.Err? ==> resp == ErrorResponse(MapError(r.error))
  {
    match r
    case Ok(v) => Response(StatusOK, Some(toJson(v)))
    case Err(e) => ErrorResponse(MapError(e))
  }

  // JSON forms of the service results (the struct tags of ports.go).

  function EnrollJson(r: EnrollResponse): Json
  {
    Obj(map["enrollment_id" := Str(r.enrollmentId), "pairing_code" := Str(r.pairingCode), "expires_at" := Str(r.expiresAt)])
  }

  function ActivateJson(r: ActivateResponse): Json
  {
    Obj(map["device_id" := Str(r.deviceId), "state" := Str(r.state)])
  }

  function ChallengeJson(r: ChallengeResponse): Json
  {
    Obj(map["challenge_id" := Str(r.challengeId), "state" := Str(r.state),
            "issued_at" := Str(r.issuedAt), "expires_at" := Str(r.expiresAt)])
  }

  function ApproveJson(r: ApproveResponse): Json
  {
    Obj(map["challenge_id" := Str(r.challengeId), "status" := Str(r.status)])
  }

  // ---------------------------------------------------------------- idempotency

  /** A cached response: its status and its JSON body. */
  datatype Cached = Cached(status: int, body: Json)

  /** The cache after a successful, freshly computed response: remembered with status 200
      for five minutes under the tenant-scoped key. */
  function Remembered(items: map<string, Entry<Cached>>, key: string, now: int, resp: Response): map<string, Entry<Cached>>
  {
    if resp.status == StatusOK && resp.body.Some? then
      items[key := Entry(Cached(StatusOK, resp.body.value), now + IdempotencyTtl)]
    else items
  }

  /** handleIdempotency, as a relation between the cache before and after a request, the
      response and whether the operation ran. Without a key the cache is neither read nor
      written and the operation runs. A live entry is replayed and the operation does not
      run. Otherwise the operation runs and only a success is remembered. */
  predicate CacheStep(before: map<string, Entry<Cached>>, after: map<string, Entry<Cached>>,
                      tenant: string, key: string, now: int, resp: Response, invoked: bool)
  {
    if key == "" then invoked && after == before
    else
      var k := ScopedKey(tenant, key);
      match Lookup(before, k, now)
      case Some(c) => !invoked && resp == Response(c.status, Some(c.body)) && after == before
      case None => invoked && after == Remembered(Purge(before, k, now), k, now, resp)
  }

  /** A success remembered under a key is what a repeat within five minutes replays,
      without running the operation again. */
  lemma RepeatReplaysSuccess(before: map<string, Entry<Cached>>, middle: map<string, Entry<Cached>>,
                             after: map<string, Entry<Cached>>, tenant: string, key: string,
                             now1: int, now2: int, resp1: Response, resp2: Response, invoked2: bool)
    requires key != "" && now1 <= now2 <= now1 + IdempotencyTtl
    requires CacheStep(before, middle, tenant, key, now1, resp1, true)
    requires CacheStep(middle, after, tenant, key, now2, resp2, invoked2)
    requires resp1.status == StatusOK && resp1.body.Some?
    ensures !invoked2 && resp2 == resp1 && after == middle
  {
    var k := ScopedKey(tenant, key);
    assert middle == Remembered(Purge(before, k, now1), k, now1, resp1);
    assert Lookup(middle, k, now2) == Some(Cached(StatusOK, resp1.body.value));
  }

  /** A failed operation leaves nothing behind: a repeat runs the operation again. */
  lemma FailureNotRemembered(before: map<string, Entry<Cached>>, after: map<string, Entry<Cached>>,
                             tenant: string, key: string, now: int, resp: Response)
    requires key != "" && resp.status != StatusOK
    requires CacheStep(before, after, tenant, key, now, resp, true)
    ensures Lookup(after, ScopedKey(tenant, key), now).None?
  {
    assert Lookup(before, ScopedKey(tenant, key), now).None?;
  }

  // ---------------------------------------------------------------- request bodies

  datatype EnrollBody = EnrollBody(deviceId: string)
  datatype ActivateBody = ActivateBody(deviceId: string, pairingCode: string, publicKey: string, deviceLabel: string)
  datatype ChallengeBody = ChallengeBody(deviceId: string, action: string, context: Option<map<string, Json>>)
  datatype ApproveBody = ApproveBody(challengeId: string, deviceId: string, signature: string,
                                     payload: Option<map<string, Json>>, totpCode: string)
  datatype LoginBody = LoginBody(tenant: string, username: string, password: string)

  /** A token and its expiry, from the token issuer. */
  datatype Token = Token(accessToken: string, expiresAt: int)

  /** TokenIssuer.Issue for a tenant and user: None when signing fails. */
  type TokenIssuer = (string, string) -> Option<Token>

  class Server {
    const auth: Auth.AuthService
    const mfa: Mfa.MfaService
    const idem: IdempotencyStore<Cached>
    const tokens: TokenIssuer

    ghost predicate Valid()
      reads mfa.devices, mfa.challenges
    {
      mfa.Valid()
    }

    constructor (auth: Auth.AuthService, mfa: Mfa.MfaService, idem: IdempotencyStore<Cached>, tokens: TokenIssuer)
      requires mfa.Valid()
      ensures Valid()
      ensures this.auth == auth && this.mfa == mfa && this.idem == idem && this.tokens == tokens
    {
      this.auth := auth;
      this.mfa := mfa;
      this.idem := idem;
      this.tokens := tokens;
    }

    /** The first half of handleIdempotency: a live cached response for the key, if any. */
    method Replay(tenant: string, key: string, now: int) returns (hit: Option<Response>)
      modifies idem
      ensures key == "" ==> hit.None? && idem.items == old(idem.items)
      ensures key != "" ==>
        && idem.items == Purge(old(idem.items), ScopedKey(tenant, key), now)
        && hit == match Lookup(old(idem.items), ScopedKey(tenant, key), now)
                  case Some(c) => Some(Response(c.status, Some(c.body)))
                  case None => None
    {
      if key == "" {
        return None;
      }
      var cached := idem.Get(tenant, key, now);
      if cached.None? {
        return None;
      }
      return Some(Response(cached.value.status, Some(cached.value.body)));
    }

    /** The second half: a success is remembered with status 200 for five minutes. */
    method Remember(tenant: string, key: string, resp: Response, now: int)
      requires resp.status == StatusOK && resp.body.Some?
      modifies idem
      ensures key == "" ==> idem.items == old(idem.items)
      ensures key != "" ==> idem.items == Remembered(old(idem.items), ScopedKey(tenant, key), now, resp)
    {
      if key != "" {
        idem.Set(tenant, key, Cached(StatusOK, resp.body.value), IdempotencyTtl, now);
      }
    }

    /** POST /api/mfa/enroll. */
    method HandleEnroll(verb: string, body: Option<EnrollBody>, key: string,
                        ctxTenant: Option<string>, ctxUser: Option<string>, now: int, network: Network)
      returns (resp: Response, outcome: Option<Result<EnrollResponse, Failure>>, sent: seq<Request>)
      requires Valid()
      modifies mfa.devices, idem
      ensures Valid()
      ensures outcome.None? ==> sent == [] && mfa.devices.devices == old(mfa.devices.devices)
      ensures verb != "POST" ==> resp == Response(StatusMethodNotAllowed, None) && outcome.None? && idem.items == old(idem.items)
      ensures verb == "POST" && body.None? ==>
                resp == ErrorResponse(BadRequest("invalid_json")) && outcome.None? && idem.items == old(idem.items)
      ensures verb == "POST" && body.Some? && body.value.deviceId == "" ==>
                resp == ErrorResponse(BadRequest("missing_fields")) && outcome.None? && idem.items == old(idem.items)
      ensures verb == "POST" && body.Some? && body.value.deviceId != "" ==>
                && CacheStep(old(idem.items), idem.items, Middleware.ContextText(ctxTenant), key, now, resp, outcome.Some?)
                && (outcome.Some? ==> resp == Render(outcome.value, EnrollJson))
                && (outcome.Some? && outcome.value.Ok? ==>
                      && body.value.deviceId in mfa.devices.devices
                      && mfa.devices.devices[body.value.deviceId] ==
                        Device(body.value.deviceId, Middleware.ContextText(ctxTenant), Middleware.ContextText(ctxUser), "", "", PairingPending, "", now, now))
    {
      outcome, sent := None, [];
      if verb != "POST" {
        return Response(StatusMethodNotAllowed, None), None, [];
      }
      if body.None? {
        return ErrorResponse(BadRequest("invalid_json")), None, [];
      }
      var req := body.value;
      if req.deviceId == "" {
        return ErrorResponse(BadRequest("missing_fields")), None, [];
      }
      var tenant, user := Middleware.ContextText(ctxTenant), Middleware.ContextText(ctxUser);
      var hit := Replay(tenant, key, now);
      if hit.Some? {
        return hit.value, None, [];
      }
      var r;
      r, sent := mfa.Enroll(tenant, user, EnrollRequest(tenant, user, req.deviceId), now, network);
      outcome := Some(r);
      resp := Render(r, EnrollJson);
      if r.Ok? {
        Remember(tenant, key, resp, now);
      }
    }

    /** POST /api/mfa/activate. */
    method HandleActivate(verb: string, body: Option<ActivateBody>, key: string,
                          ctxTenant: Option<string>, ctxUser: Option<string>, now: int, network: Network)
      returns (resp: Response, outcome: Option<Result<ActivateResponse, Failure>>, sent: seq<Request>)
      requires Valid()
      modifies mfa.devices, idem
      ensures Valid()
      ensures outcome.None? ==> sent == [] && mfa.devices.devices == old(mfa.devices.devices)
      ensures verb != "POST" ==> resp == Response(StatusMethodNotAllowed, None) && outcome.None? && idem.items == old(idem.items)
      ensures verb == "POST" && body.None? ==>
                resp == ErrorResponse(BadRequest("invalid_json")) && outcome.None? && idem.items == old(idem.items)
      ensures verb == "POST" && body.Some? &&
              (body.value.deviceId == "" || body.value.pairingCode == "" || body.value.publicKey == "") ==>
                resp == ErrorResponse(BadRequest("missing_fields")) && outcome.None? && idem.items == old(idem.items)
      ensures verb == "POST" && body.Some? &&
              body.value.deviceId != "" && body.value.pairingCode != "" && body.value.publicKey != "" ==>
                && CacheStep(old(idem.items), idem.items, Middleware.ContextText(ctxTenant), key, now, resp, outcome.Some?)
                && (outcome.Some? ==> resp == Render(outcome.value, ActivateJson))
                && (outcome.Some? && outcome.value.Ok? ==>
                      && body.value.deviceId in mfa.devices.devices
                      && mfa.devices.devices[body.value.deviceId].tenant == Middleware.ContextText(ctxTenant)
                      && mfa.devices.devices[body.value.deviceId].state == Active)
    {
      outcome, sent := None, [];
      if verb != "POST" {
        return Response(StatusMethodNotAllowed, None), None, [];
      }
      if body.None? {
        return ErrorResponse(BadRequest("invalid_json")), None, [];
      }
      var req := body.value;
      if req.deviceId == "" || req.pairingCode == "" || req.publicKey == "" {
        return ErrorResponse(BadRequest("missing_fields")), None, [];
      }
      var tenant, user := Middleware.ContextText(ctxTenant), Middleware.ContextText(ctxUser);
      var hit := Replay(tenant, key, now);
      if hit.Some? {
        return hit.value, None, [];
      }
      var r;
      r, sent := mfa.Activate(tenant, user,
        ActivateRequest(tenant, user, req.deviceId, req.pairingCode, req.publicKey, req.deviceLabel), now, network);
      outcome := Some(r);
      resp := Render(r, ActivateJson);
      if r.Ok? {
        Remember(tenant, key, resp, now);
      }
    }

    /** POST /api/mfa/challenge. */
    method HandleCreateChallenge(verb: string, body: Option<ChallengeBody>, key: string,
                                 ctxTenant: Option<string>, ctxUser: Option<string>, now: int, network: Network)
      returns (resp: Response, outcome: Option<Result<ChallengeResponse, Failure>>, sent: seq<Request>)
      requires Valid()
      modifies mfa.challenges, idem
      ensures Valid()
      ensures outcome.None? ==> sent == [] && mfa.challenges.challenges == old(mfa.challenges.challenges)
      ensures verb != "POST" ==> resp == Response(StatusMethodNotAllowed, None) && outcome.None? && idem.items == old(idem.items)
      ensures verb == "POST" && body.None? ==>
                resp == ErrorResponse(BadRequest("invalid_json")) && outcome.None? && idem.items == old(idem.items)
      ensures verb == "POST" && body.Some? && (body.value.deviceId == "" || body.value.action == "") ==>
                resp == ErrorResponse(BadRequest("missing_fields")) && outcome.None? && idem.items == old(idem.items)
      ensures verb == "POST" && body.Some? && body.value.deviceId != "" && body.value.action != "" ==>
                && CacheStep(old(idem.items), idem.items, Middleware.ContextText(ctxTenant), key, now, resp, outcome.Some?)
                && (outcome.Some? ==> resp == Render(outcome.value, ChallengeJson))
                && (outcome.Some? && outcome.value.Ok? ==>
                      && outcome.value.value.challengeId in mfa.challenges.challenges
                      && mfa.challenges.challenges[outcome.value.value.challengeId].tenant == Middleware.ContextText(ctxTenant)
                      && mfa.challenges.challenges[outcome.value.value.challengeId].deviceId == body.value.deviceId)
    {
      outcome, sent := None, [];
      if verb != "POST" {
        return Response(StatusMethodNotAllowed, None), None, [];
      }
      if body.None? {
        return ErrorResponse(BadRequest("invalid_json")), None, [];
      }
      var req := body.value;
      if req.deviceId == "" || req.action == "" {
        return ErrorResponse(BadRequest("missing_fields")), None, [];
      }
      var tenant, user := Middleware.ContextText(ctxTenant), Middleware.ContextText(ctxUser);
      var hit := Replay(tenant, key, now);
      if hit.Some? {
        return hit.value, None, [];
      }
      var r;
      r, sent := mfa.CreateChallenge(tenant, user,
        ChallengeRequest(tenant, user, req.deviceId, req.action, req.context), now, network);
      outcome := Some(r);
      resp := Render(r, ChallengeJson);
      if r.Ok? {
        Remember(tenant, key, resp, now);
      }
    }

    /** POST /api/mfa/approve. A null or absent payload counts as missing. */
    method HandleApprove(verb: string, body: Option<ApproveBody>, key: string,
                         ctxTenant: Option<string>, ctxUser: Option<string>, now: int, network: Network)
      returns (resp: Response, outcome: Option<Result<ApproveResponse, Failure>>, sent: seq<Request>)
      requires Valid()
      modifies mfa.challenges, mfa.nonces, idem
      ensures Valid()
      ensures outcome.None? ==> sent == [] && mfa.challenges.challenges == old(mfa.challenges.challenges)
                                && mfa.nonces.items == old(mfa.nonces.items)
      ensures verb != "POST" ==> resp == Response(StatusMethodNotAllowed, None) && outcome.None? && idem.items == old(idem.items)
      ensures verb == "POST" && body.None? ==>
                resp == ErrorResponse(BadRequest("invalid_json")) && outcome.None? && idem.items == old(idem.items)
      ensures verb == "POST" && body.Some? &&
              (body.value.challengeId == "" || body.value.deviceId == "" || body.value.signature == "" || body.value.payload.None?) ==>
                resp == ErrorResponse(BadRequest("missing_fields")) && outcome.None? && idem.items == old(idem.items)
      ensures verb == "POST" && body.Some? &&
              body.value.challengeId != "" && body.value.deviceId != "" && body.value.signature != "" && body.value.payload.Some? ==>
                && CacheStep(old(idem.items), idem.items, Middleware.ContextText(ctxTenant), key, now, resp, outcome.Some?)
                && (outcome.Some? ==> resp == Render(outcome.value, ApproveJson))
                && (outcome.Some? && outcome.value.Ok? ==>
                      && body.value.challengeId in mfa.challenges.challenges
                      && mfa.challenges.challenges[body.value.challengeId].tenant == Middleware.ContextText(ctxTenant)
                      && mfa.challenges.challenges[body.value.challengeId].state == Approved)
    {
      outcome, sent := None, [];
      if verb != "POST" {
        return Response(StatusMethodNotAllowed, None), None, [];
      }
      if body.None? {
        return ErrorResponse(BadRequest("invalid_json")), None, [];
      }
      var req := body.value;
      if req.challengeId == "" || req.deviceId == "" || req.signature == "" || req.payload.None? {
        return ErrorResponse(BadRequest("missing_fields")), None, [];
      }
      var tenant, user := Middleware.ContextText(ctxTenant), Middleware.ContextText(ctxUser);
      var hit := Replay(tenant, key, now);
      if hit.Some? {
        return hit.value, None, [];
      }
      var r;
      r, sent := mfa.Approve(tenant, user,
        ApproveRequest(tenant, user, req.deviceId, req.challengeId, req.signature, req.payload, req.totpCode), now, network);
      outcome := Some(r);
      resp := Render(r, ApproveJson);
      if r.Ok? {
        Remember(tenant, key, resp, now);
      }
    }

    /** GET /api/mfa/challenge/{id}: the id is what follows the route prefix; a challenge
        of another tenant is reported as absent. */
    method HandleGetChallenge(verb: string, path: string, ctxTenant: Option<string>) returns (resp: Response)
      ensures verb != "GET" ==> resp == Response(StatusMethodNotAllowed, None)
      ensures verb == "GET" && TrimPrefix(path, "/api/mfa/challenge/") == "" ==>
                resp == ErrorResponse(BadRequest("missing_id"))
      ensures verb == "GET" && TrimPrefix(path, "/api/mfa/challenge/") != "" ==>
                var c := VisibleChallenge(mfa.challenges.challenges, Middleware.ContextText(ctxTenant), TrimPrefix(path, "/api/mfa/challenge/"));
                && (c.None? ==> resp == ErrorResponse(AppError(404, "not_found", "not_found", None)))
                && (c.Some? ==> resp == Response(StatusOK, Some(Obj(map[
                      "challenge_id" := Str(c.value.id), "status" := Str(c.value.state),
                      "updated_at" := Num(c.value.updatedAt)]))))
    {
      if verb != "GET" {
        return Response(StatusMethodNotAllowed, None);
      }
      var id := TrimPrefix(path, "/api/mfa/challenge/");
      if id == "" {
        return ErrorResponse(BadRequest("missing_id"));
      }
      var c := mfa.challenges.GetById(Middleware.ContextText(ctxTenant), id);
      if c.None? {
        return ErrorResponse(AppError(404, "not_found", "not_found", None));
      }
      return Response(StatusOK, Some(Obj(map[
        "challenge_id" := Str(c.value.id), "status" := Str(c.value.state), "updated_at" := Num(c.value.updatedAt)])));
    }

    /** GET /api/mfa/status/{id}: the device's state, for the caller's tenant only. */
    method HandleGetStatus(verb: string, path: string, ctxTenant: Option<string>) returns (resp: Response)
      ensures verb != "GET" ==> resp == Response(StatusMethodNotAllowed, None)
      ensures verb == "GET" && TrimPrefix(path, "/api/mfa/status/") == "" ==>
                resp == ErrorResponse(BadRequest("missing_id"))
      ensures verb == "GET" && TrimPrefix(path, "/api/mfa/status/") != "" ==>
                var d := VisibleDevice(mfa.devices.devices, Middleware.ContextText(ctxTenant), TrimPrefix(path, "/api/mfa/status/"));
                && (d.None? ==> resp == ErrorResponse(AppError(404, "not_found", "not_found", None)))
                && (d.Some? ==> resp == Response(StatusOK, Some(Obj(map[
                      "device_id" := Str(d.value.id), "status" := Str(d.value.state)]))))
    {
      if verb != "GET" {
        return Response(StatusMethodNotAllowed, None);
      }
      var id := TrimPrefix(path, "/api/mfa/status/");
      if id == "" {
        return ErrorResponse(BadRequest("missing_id"));
      }
      var d := mfa.devices.GetById(Middleware.ContextText(ctxTenant), id);
      if d.None? {
        return ErrorResponse(AppError(404, "not_found", "not_found", None));
      }
      return Response(StatusOK, Some(Obj(map["device_id" := Str(d.value.id), "status" := Str(d.value.state)])));
    }

    /** POST /api/auth/login. Emptiness is checked before the tenant is trimmed, so a
        tenant of only white space reaches Login as "". */
    method HandleLogin(verb: string, body: Option<LoginBody>, now: int)
      returns (resp: Response, outcome: Option<Result<Session, Failure>>)
      modifies auth.sessions
      ensures outcome.None? ==> auth.sessions.sessions == old(auth.sessions.sessions)
      ensures verb != "POST" ==> resp == Response(StatusMethodNotAllowed, None) && outcome.None?
      ensures verb == "POST" && body.None? ==> resp == ErrorResponse(BadRequest("invalid_json")) && outcome.None?
      ensures verb == "POST" && body.Some? &&
              (body.value.tenant == "" || body.value.username == "" || body.value.password == "") ==>
                resp == ErrorResponse(BadRequest("missing_fields")) && outcome.None?
      ensures verb == "POST" && body.Some? &&
              body.value.tenant != "" && body.value.username != "" && body.value.password != "" ==>
                && outcome.Some?
                && (outcome.value.Err? ==>
                      resp == ErrorResponse(AppError(401, "invalid_credentials", "invalid_credentials", None))
                      && auth.sessions.sessions == old(auth.sessions.sessions))
                && (outcome.value.Ok? ==>
                      && outcome.value.value.tenant == TrimSpace(body.value.tenant)
                      && resp == match tokens(TrimSpace(body.value.tenant), outcome.value.value.userId)
                                 case None => ErrorResponse(AppError(500, "token_error", "token_issue_failed", None))
                                 case Some(t) => Response(StatusOK, Some(Obj(map[
                                   "access_token" := Str(t.accessToken), "expires_at" := Num(t.expiresAt)]))))
    {
      if verb != "POST" {
        return Response(StatusMethodNotAllowed, None), None;
      }
      if body.None? {
        return ErrorResponse(BadRequest("invalid_json")), None;
      }
      var req := body.value;
      if req.tenant == "" || req.username == "" || req.password == "" {
        return ErrorResponse(BadRequest("missing_fields")), None;
      }
      var tenant := TrimSpace(req.tenant);
      var r := auth.Login(tenant, req.username, req.password, now);
      outcome := Some(r);
      if r.Err? {
        return ErrorResponse(AppError(401, "invalid_credentials", "invalid_credentials", None)), outcome;
      }
      var token := tokens(tenant, r.value.userId);
      if token.None? {
        return ErrorResponse(AppError(500, "token_error", "token_issue_failed", None)), outcome;
      }
      resp := Response(StatusOK, Some(Obj(map[
        "access_token" := Str(token.value.accessToken), "expires_at" := Num(token.value.expiresAt)])));
    }

    /** The same enrollment sent twice with one Idempotency-Key, the second within five
        minutes of the first: when the first ran and succeeded, the second gets the
        identical response and never reaches the service or the provider. */
    method EnrollRepeated(body: EnrollBody, key: string, ctxTenant: Option<string>, ctxUser: Option<string>,
                          now1: int, now2: int, network1: Network, network2: Network)
      returns (resp1: Response, outcome1: Option<Result<EnrollResponse, Failure>>,
               resp2: Response, outcome2: Option<Result<EnrollResponse, Failure>>, sent2: seq<Request>)
      requires Valid()
      requires key != "" && body.deviceId != "" && now1 <= now2 <= now1 + IdempotencyTtl
      modifies mfa.devices, idem
      ensures Valid()
      ensures outcome1.Some? && resp1.status == StatusOK ==> resp2 == resp1 && outcome2.None? && sent2 == []
    {
      var sent1;
      ghost var before := idem.items;
      resp1, outcome1, sent1 := HandleEnroll("POST", Some(body), key, ctxTenant, ctxUser, now1, network1);
      ghost var middle := idem.items;
      resp2, outcome2, sent2 := HandleEnroll("POST", Some(body), key, ctxTenant, ctxUser, now2, network2);
      if outcome1.Some? && resp1.status == StatusOK {
        RepeatReplaysSuccess(before, middle, idem.items, Middleware.ContextText(ctxTenant), key, now1, now2, resp1, resp2, outcome2.Some?);
      }
    }
  }
}
