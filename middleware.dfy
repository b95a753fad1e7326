/** The authentication gate in front of the MFA routes: the bearer-token middleware
    (internal/middleware/auth.go), the tenant check (internal/middleware/tenant.go) and
    their nesting (internal/transport/http/server.go, the JWT middleware outside the
    tenant check). Signature verification is a parameter `verify` mapping the token text to
    its claims, or to None when the signature, signing method or expiry is rejected. */
module Middleware {
  import opened Wrappers
  import opened Domain
  import opened GoStrings

  type Claims = map<string, Json>
  type Headers = map<string, string>
  type Verifier = string -> Option<Claims>

  const StatusUnauthorized: int := 401
  const StatusForbidden: int := 403
  const BearerPrefix: string := "Bearer "
  const TenantHeader: string := "X-Tenant-ID"
  const UserHeader: string := "X-User-ID"

  /** http.Header.Get: the empty string when the header is absent. */
  function Header(h: Headers, name: string): (v: string)
    ensures name in h ==> v == h[name]
    ensures name !in h ==> v == ""
  {
    if name in h then h[name] else ""
  }

  // ---------------------------------------------------------------- tenant.go

  /** The text a context value yields, "" when the context carries none. */
  function ContextText(v: Option<string>): (s: string)
    ensures v.Some? ==> s == v.value
    ensures v.None? ==> s == ""
  {
    if v.Some? then v.value else ""
  }

  /** EnforceTenant lets a request through iff the trimmed X-Tenant-ID header and the
      trimmed context tenant are both non-empty and equal. */
  function EnforceTenant(headers: Headers, ctxTenant: Option<string>): (pass: bool)
    ensures ctxTenant.None? ==> !pass
    ensures TenantHeader !in headers ==> !pass
    ensures pass ==> TrimSpace(Header(headers, TenantHeader)) == TrimSpace(ContextText(ctxTenant)) != ""
  {
    var headerTenant := TrimSpace(Header(headers, TenantHeader));
    var contextTenant := TrimSpace(ContextText(ctxTenant));
    !(headerTenant == "" || contextTenant == "" || headerTenant != contextTenant)
  }

  /** The check in terms of the two raw values: it passes iff both are the same non-empty
      tenant name, each surrounded by nothing but white space. */
  lemma EnforceTenantMeansSameTenant(headers: Headers, ctxTenant: Option<string>)
    ensures EnforceTenant(headers, ctxTenant) <==>
      exists t: string | t != "" && Trimmed(t) && |t| <= |Header(headers, TenantHeader)| && |t| <= |ContextText(ctxTenant)| ::
        Pads(Header(headers, TenantHeader), t) && Pads(ContextText(ctxTenant), t)
  {
    var h, c := Header(headers, TenantHeader), ContextText(ctxTenant);
    if EnforceTenant(headers, ctxTenant) {
      var t := TrimSpace(h);
      assert t != "" && Trimmed(t) && |t| <= |h| && |t| <= |c| && Pads(h, t) && Pads(c, t);
    }
    forall t: string | t != "" && Trimmed(t) && |t| <= |h| && |t| <= |c| && Pads(h, t) && Pads(c, t)
      ensures EnforceTenant(headers, ctxTenant)
    {
      PaddingDeterminesTrim(h, t);
      PaddingDeterminesTrim(c, t);
    }
  }

  /** White space around the header value never changes the outcome. */
  lemma EnforceTenantIgnoresHeaderPadding(headers: Headers, ctxTenant: Option<string>, a: string, b: string)
    requires AllSpace(a) && AllSpace(b)
    ensures EnforceTenant(headers[TenantHeader := a + Header(headers, TenantHeader) + b], ctxTenant)
         == EnforceTenant(headers, ctxTenant)
  {
    TrimSpacePadded(a, Header(headers, TenantHeader), b);
  }

  /** White space around the context value never changes the outcome. */
  lemma EnforceTenantIgnoresContextPadding(headers: Headers, tenant: string, a: string, b: string)
    requires AllSpace(a) && AllSpace(b)
    ensures EnforceTenant(headers, Some(a + tenant + b)) == EnforceTenant(headers, Some(tenant))
  {
    TrimSpacePadded(a, tenant, b);
  }

  // ---------------------------------------------------------------- auth.go

  /** verifyIssuer: the `iss` claim is a string equal to the configured issuer. */
  function VerifyIssuer(claims: Claims, issuer: string): (ok: bool)
    ensures ok <==> "iss" in claims && claims["iss"] == Str(issuer)
  {
    if "iss" !in claims then false
    else match claims["iss"]
      case Str(v) => v == issuer
      case _ => false
  }

  /** What verifyAudience accepts: `aud` is the audience as a string, or a list holding
      the audience as one of its string elements. */
  predicate AudienceMatches(claims: Claims, audience: string)
  {
    "aud" in claims &&
    (claims["aud"] == Str(audience) || (claims["aud"].Arr? && Str(audience) in claims["aud"].items))
  }

  /** verifyAudience: a type switch on `aud`, searching a list element by element. */
  method VerifyAudience(claims: Claims, audience: string) returns (ok: bool)
    ensures ok == AudienceMatches(claims, audience)
  {
    if "aud" !in claims {
      return false;
    }
    match claims["aud"]
    case Str(aud) =>
      return aud == audience;
    case Arr(items) =>
      var i := 0;
      while i < |items|
        invariant 0 <= i <= |items|
        invariant forall j | 0 <= j < i :: items[j] != Str(audience)
      {
        if items[i].Str? && items[i].s == audience {
          return true;
        }
        i := i + 1;
      }
      return false;
    case _ =>
      return false;
  }

  /** A claim read with a failed-is-empty string assertion, as `claims[k].(string)`. */
  function ClaimText(claims: Claims, name: string): (s: string)
    ensures name in claims && claims[name].Str? ==> s == claims[name].s
    ensures !(name in claims && claims[name].Str?) ==> s == ""
  {
    if name in claims && claims[name].Str? then claims[name].s else ""
  }

  /** Header.Set applied only to a non-empty value. */
  function SetIfPresent(h: Headers, name: string, value: string): (r: Headers)
    ensures value != "" ==> r == h[name := value]
    ensures value == "" ==> r == h
  {
    if value != "" then h[name := value] else h
  }

  /** What the bearer-token middleware does with a request: reject with 401, or forward
      with (possibly rewritten) headers and the tenant and subject claims in the context. */
  datatype Verdict =
    | Reject(status: int)
    | Forward(headers: Headers, tenant: string, user: string)

  /** The bearer-token middleware as a function of the incoming headers. */
  function Gate(headers: Headers, verify: Verifier, issuer: string, audience: string): (v: Verdict)
    ensures v.Reject? ==> v.status == StatusUnauthorized
    ensures v.Forward? <==>
      && HasPrefix(Header(headers, "Authorization"), BearerPrefix)
      && verify(TrimPrefix(Header(headers, "Authorization"), BearerPrefix)).Some?
      && VerifyIssuer(verify(TrimPrefix(Header(headers, "Authorization"), BearerPrefix)).value, issuer)
      && AudienceMatches(verify(TrimPrefix(Header(headers, "Authorization"), BearerPrefix)).value, audience)
    ensures v.Forward? ==>
      var claims := verify(TrimPrefix(Header(headers, "Authorization"), BearerPrefix)).value;
      && v.tenant == ClaimText(claims, "tenant_id")
      && v.user == ClaimText(claims, "sub")
      && (v.tenant != "" ==> Header(v.headers, TenantHeader) == v.tenant)
      && (v.tenant == "" ==> Header(v.headers, TenantHeader) == Header(headers, TenantHeader))
      && (v.user != "" ==> Header(v.headers, UserHeader) == v.user)
      && (v.user == "" ==> Header(v.headers, UserHeader) == Header(headers, UserHeader))
      && (forall k | k != TenantHeader && k != UserHeader :: (k in v.headers <==> k in headers))
      && (forall k | k != TenantHeader && k != UserHeader && k in headers :: v.headers[k] == headers[k])
  {
    var auth := Header(headers, "Authorization");
    if !HasPrefix(auth, BearerPrefix) then Reject(StatusUnauthorized)
    else match verify(TrimPrefix(auth, BearerPrefix))
      case None => Reject(StatusUnauthorized)
      case Some(claims) =>
        if !VerifyIssuer(claims, issuer) || !AudienceMatches(claims, audience) then Reject(StatusUnauthorized)
        else
          var tenant := ClaimText(claims, "tenant_id");
          var user := ClaimText(claims, "sub");
          Forward(SetIfPresent(SetIfPresent(headers, TenantHeader, tenant), UserHeader, user), tenant, user)
  }

  /** A request as the middleware chain sees it: headers, and the tenant and user the
      request context carries (None when nothing was stored). */
  class Request {
    var headers: Headers
    var tenant: Option<string>
    var user: Option<string>

    constructor (headers: Headers)
      ensures this.headers == headers && tenant.None? && user.None?
    {
      this.headers := headers;
      tenant := None;
      user := None;
    }
  }

  /** JWTValidator: the configured issuer and audience, and the signature check. */
  class JwtValidator {
    const verify: Verifier
    const issuer: string
    const audience: string

    constructor (verify: Verifier, issuer: string, audience: string)
      ensures this.verify == verify && this.issuer == issuer && this.audience == audience
    {
      this.verify := verify;
      this.issuer := issuer;
      this.audience := audience;
    }

    /** Middleware: either writes 401 and leaves the request alone, or stores the claims in
        the context, stamps the tenant and user headers and hands the request on. */
    method Middleware(req: Request) returns (forwarded: bool, status: int)
      modifies req
      ensures var v := Gate(old(req.headers), verify, issuer, audience);
        && (forwarded <==> v.Forward?)
        && (!forwarded ==> status == StatusUnauthorized && unchanged(req))
        && (forwarded ==> req.headers == v.headers && req.tenant == Some(v.tenant) && req.user == Some(v.user))
    {
      var auth := Header(req.headers, "Authorization");
      if !HasPrefix(auth, BearerPrefix) {
        return false, StatusUnauthorized;
      }
      var tokenText := TrimPrefix(auth, BearerPrefix);
      var parsed := verify(tokenText);
      if parsed.None? {
        return false, StatusUnauthorized;
      }
      var claims := parsed.value;
      var audienceOk := VerifyAudience(claims, audience);
      if !VerifyIssuer(claims, issuer) || !audienceOk {
        return false, StatusUnauthorized;
      }
      var tenant := ClaimText(claims, "tenant_id");
      var user := ClaimText(claims, "sub");
      req.tenant := Some(tenant);
      req.user := Some(user);
      if tenant != "" {
        req.headers := req.headers[TenantHeader := tenant];
      }
      if user != "" {
        req.headers := req.headers[UserHeader := user];
      }
      return true, 0;
    }
  }

  // ---------------------------------------------------------------- composition

  /** What a protected route sees: refused with a status, or admitted for a tenant and user. */
  datatype Access = Denied(status: int) | Admitted(tenant: string, user: string)

  /** The protected routes as wired: the JWT middleware outside EnforceTenant, so the
      tenant check reads the header after the middleware has rewritten it. */
  function Secured(headers: Headers, verify: Verifier, issuer: string, audience: string): (a: Access)
    ensures a.Denied? ==> a.status == StatusUnauthorized || a.status == StatusForbidden
    ensures a.Admitted? ==> a.tenant != "" && Gate(headers, verify, issuer, audience).Forward?
  {
    match Gate(headers, verify, issuer, audience)
    case Reject(status) => Denied(status)
    case Forward(forwarded, tenant, user) =>
      if EnforceTenant(forwarded, Some(tenant)) then Admitted(tenant, user) else Denied(StatusForbidden)
  }

  /** As wired, a request that passes the token checks is admitted iff its tenant claim is
      not blank: the header the client sent plays no part. */
  lemma SecuredAdmitsAnyNonBlankClaim(headers: Headers, verify: Verifier, issuer: string, audience: string)
    requires Gate(headers, verify, issuer, audience).Forward?
    ensures Secured(headers, verify, issuer, audience).Admitted?
        <==> TrimSpace(Gate(headers, verify, issuer, audience).tenant) != ""
  {
    var v := Gate(headers, verify, issuer, audience);
    if v.tenant == "" {
      assert TrimSpace(ContextText(Some(v.tenant))) == "";
    } else {
      assert Header(v.headers, TenantHeader) == v.tenant;
    }
  }

  /** As wired, replacing (or forging) the X-Tenant-ID header never changes the outcome. */
  lemma SecuredIgnoresTenantHeader(headers: Headers, forged: string, verify: Verifier, issuer: string, audience: string)
    ensures Secured(headers[TenantHeader := forged], verify, issuer, audience)
         == Secured(headers, verify, issuer, audience)
  {
    var h' := headers[TenantHeader := forged];
    assert Header(h', "Authorization") == Header(headers, "Authorization");
    var v, v' := Gate(headers, verify, issuer, audience), Gate(h', verify, issuer, audience);
    if v.Forward? {
      assert v'.tenant == v.tenant && v'.user == v.user;
      if v.tenant == "" {
        assert TrimSpace(ContextText(Some(v.tenant))) == "";
      } else {
        assert Header(v.headers, TenantHeader) == Header(v'.headers, TenantHeader) == v.tenant;
      }
    }
  }

  /** The claims of a well-formed token for tenant "t1", user "u1". */
  function DemoClaims(): (c: Claims)
    ensures "tenant_id" in c && c["tenant_id"] == Str("t1")
  {
    map["iss" := Str("trustpin"), "aud" := Str("mobile"), "tenant_id" := Str("t1"), "sub" := Str("u1")]
  }

  /** A signature check that accepts any token, yielding DemoClaims. */
  function DemoVerify(token: string): Option<Claims>
  {
    Some(DemoClaims())
  }

  /** A request carrying that token and the header X-Tenant-ID: t2. */
  function ForgedHeaders(): (h: Headers)
    ensures Header(h, TenantHeader) == "t2"
  {
    map["Authorization" := "Bearer tok", TenantHeader := "t2"]
  }

  /** The token checks pass on the forged request; the claim says tenant "t1". */
  lemma ForgedRequestPassesGate()
    ensures Gate(ForgedHeaders(), DemoVerify, "trustpin", "mobile").Forward?
    ensures Gate(ForgedHeaders(), DemoVerify, "trustpin", "mobile").tenant == "t1"
  {
    var auth := Header(ForgedHeaders(), "Authorization");
    assert auth == "Bearer tok";
    assert auth[..|BearerPrefix|] == BearerPrefix;
    assert ClaimText(DemoClaims(), "tenant_id") == "t1";
  }

  /** As wired, a token for tenant "t1" presented with X-Tenant-ID: t2 is admitted. */
  lemma ForgedTenantHeaderAdmitted()
    ensures Secured(ForgedHeaders(), DemoVerify, "trustpin", "mobile").Admitted?
  {
    ForgedRequestPassesGate();
    assert Trimmed("t1");
    TrimSpaceOfTrimmed("t1");
    SecuredAdmitsAnyNonBlankClaim(ForgedHeaders(), DemoVerify, "trustpin", "mobile");
  }

  /** The check as the design describes it: the tenant claim must agree with the header
      the client sent, so EnforceTenant reads the headers from before the rewrite. */
  function SecuredIndependent(headers: Headers, verify: Verifier, issuer: string, audience: string): (a: Access)
    ensures a.Denied? ==> a.status == StatusUnauthorized || a.status == StatusForbidden
  {
    match Gate(headers, verify, issuer, audience)
    case Reject(status) => Denied(status)
    case Forward(_, tenant, user) =>
      if EnforceTenant(headers, Some(tenant)) then Admitted(tenant, user) else Denied(StatusForbidden)
  }

  /** With the independent check, a request is admitted iff the token checks pass and the
      header the client sent names, up to white space, the same non-blank tenant as the claim. */
  lemma SecuredIndependentRequiresAgreement(headers: Headers, verify: Verifier, issuer: string, audience: string)
    ensures SecuredIndependent(headers, verify, issuer, audience).Admitted? <==>
      && Gate(headers, verify, issuer, audience).Forward?
      && TrimSpace(Header(headers, TenantHeader)) == TrimSpace(Gate(headers, verify, issuer, audience).tenant) != ""
    ensures SecuredIndependent(headers, verify, issuer, audience).Admitted? ==>
      SecuredIndependent(headers, verify, issuer, audience)
        == Secured(headers, verify, issuer, audience)
  {
    var v := Gate(headers, verify, issuer, audience);
    if v.Forward? && EnforceTenant(headers, Some(v.tenant)) {
      assert Header(v.headers, TenantHeader) == v.tenant;
      TrimSpaceIdempotent(v.tenant);
    }
  }

  /** The forged request of ForgedTenantHeaderAdmitted is refused with 403. */
  lemma ForgedTenantHeaderRefused()
    ensures SecuredIndependent(ForgedHeaders(), DemoVerify, "trustpin", "mobile") == Denied(StatusForbidden)
  {
    ForgedRequestPassesGate();
    assert Trimmed("t1") && Trimmed("t2");
    TrimSpaceOfTrimmed("t1");
    TrimSpaceOfTrimmed("t2");
    assert "t1" != "t2" by { assert "t1"[1] != "t2"[1]; }
    SecuredIndependentRequiresAgreement(ForgedHeaders(), DemoVerify, "trustpin", "mobile");
  }
}
