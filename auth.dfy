/** Auth context extraction from the `authorization` header, the role check,
    and the 401 / 403 responses. Token decoding (without signature
    verification) is a parameter: `decode` maps a token to its claims, or to
    None when the token cannot be decoded. */
module Auth {
  import opened Wrappers
  import opened Http

  datatype AuthContext = AuthContext(
    userId: string,
    tenantId: string,
    email: Option<string>,
    name: Option<string>,
    roles: seq<string>)

  /** The claims the extractor reads from a decoded token. */
  datatype Claims = Claims(
    aud: Option<string>,
    oid: Option<string>,
    sub: Option<string>,
    tid: Option<string>,
    preferredUsername: Option<string>,
    name: Option<string>,
    roles: Option<seq<string>>,
    appRoles: Option<seq<string>>)

  function Unauthorized<T>(message: string := "Unauthorized"): (r: HttpResponse<T>)
    ensures r.Fail? && r.status == 401 && r.message == message
  {
    Fail(401, message)
  }

  function Forbidden<T>(message: string := "Forbidden"): (r: HttpResponse<T>)
    ensures r.Fail? && r.status == 403 && r.message == message
  {
    Fail(403, message)
  }

  const BearerPrefix: string := "Bearer "

  /** The token of the header: what follows an exact, case-sensitive `"Bearer "`
      prefix. No header, another prefix, or nothing after the prefix gives None. */
  function BearerToken(header: Option<string>): (token: Option<string>)
    ensures token.Some? <==> header.Some? && |header.value| > 7 && header.value[..7] == BearerPrefix
    ensures token.Some? ==> token.value != "" && header.value == BearerPrefix + token.value
  {
    var h := OrFallback(header, "");
    if |h| >= 7 && h[..7] == BearerPrefix && h[7..] != "" then Some(h[7..]) else None
  }

  /** The prefix is stripped exactly: a bearer header gives back its token. */
  lemma BearerTokenRoundTrip(token: string)
    requires token != ""
    ensures BearerToken(Some(BearerPrefix + token)) == Some(token)
  {
    assert (BearerPrefix + token)[..7] == BearerPrefix;
    assert (BearerPrefix + token)[7..] == token;
  }

  /** With an expected audience configured (a non-empty setting), `aud` must equal it. */
  predicate AudienceAccepted(allowedAudience: Option<string>, c: Claims)
  {
    Truthy(allowedAudience) ==> c.aud == allowedAudience
  }

  /** `oid || sub`. */
  function ClaimUserId(c: Claims): Option<string>
  {
    if Truthy(c.oid) then c.oid else c.sub
  }

  /** `roles || appRoles || []`: a present list is kept even when it is empty. */
  function ClaimRoles(c: Claims): seq<string>
  {
    if c.roles.Some? then c.roles.value
    else if c.appRoles.Some? then c.appRoles.value
    else []
  }

  /** `getAuthContext`: None (answered with 401 by the handlers) when there is no
      bearer token, the token cannot be decoded, the audience is rejected, or the
      user or tenant claim is missing or empty. */
  function GetAuthContext(header: Option<string>, decode: string -> Option<Claims>, allowedAudience: Option<string>)
    : (r: Option<AuthContext>)
    ensures BearerToken(header).None? ==> r.None?
    ensures BearerToken(header).Some? && decode(BearerToken(header).value).None? ==> r.None?
    ensures r.Some? <==>
      && BearerToken(header).Some?
      && var claims := decode(BearerToken(header).value);
      && claims.Some?
      && AudienceAccepted(allowedAudience, claims.value)
      && Truthy(ClaimUserId(claims.value))
      && Truthy(claims.value.tid)
    ensures r.Some? ==>
      && var c := decode(BearerToken(header).value).value;
      && r.value.userId != "" && r.value.tenantId != ""
      && (Truthy(c.oid) ==> r.value.userId == c.oid.value)
      && (!Truthy(c.oid) ==> c.sub == Some(r.value.userId))
      && c.tid == Some(r.value.tenantId)
      && r.value.email == c.preferredUsername
      && r.value.name == c.name
      && r.value.roles == ClaimRoles(c)
  {
    match BearerToken(header)
    case None => None
    case Some(token) =>
      match decode(token)
      case None => None
      case Some(c) =>
        if !AudienceAccepted(allowedAudience, c) then None
        else
          var userId := ClaimUserId(c);
          if !Truthy(userId) || !Truthy(c.tid) then None
          else Some(AuthContext(userId.value, c.tid.value, c.preferredUsername, c.name, ClaimRoles(c)))
  }

  /** Without a configured audience, any `aud` (or none) is accepted. */
  lemma NoAudienceConfiguredAcceptsAll(c: Claims)
    ensures AudienceAccepted(None, c) && AudienceAccepted(Some(""), c)
  {
  }

  /** Whether some held role appears in the list (`roles.some(r => required.includes(r))`). */
  function SomeRoleIn(held: seq<string>, required: seq<string>): (b: bool)
    ensures b <==> exists i :: 0 <= i < |held| && held[i] in required
  {
    if held == [] then false
    else held[0] in required || SomeRoleIn(held[1..], required)
  }

  /** `requireRole`: true exactly when the caller holds one of the required roles. */
  function RequireRole(auth: AuthContext, requiredRoles: seq<string>): (allowed: bool)
    ensures allowed <==> exists r :: r in auth.roles && r in requiredRoles
    ensures auth.roles == [] || requiredRoles == [] ==> !allowed
  {
    SomeRoleIn(auth.roles, requiredRoles)
  }
}
