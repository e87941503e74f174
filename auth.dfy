/**
 * Bearer-token authentication and role checks (middleware/auth.go):
 * token extraction from the Authorization header, the mapping of JWT
 * library errors, the required/optional authentication middlewares, the
 * any-of role check, the claims of generated tokens, and the context lookup.
 */
module Auth {
  import opened Wrappers
  import opened Text
  import Clock
  import Jwt
  import Gin
  import GatewayConfig

  datatype AuthError = MissingToken | BadHeaderFormat | InvalidToken | ExpiredToken

  /** `err.Error()` of each error. */
  function Message(e: AuthError): string {
    match e
    case MissingToken => "missing authorization token"
    case BadHeaderFormat => "invalid authorization header format"
    case InvalidToken => "invalid token"
    case ExpiredToken => "token expired"
  }

  const AuthorizationHeader := "Authorization"

  /** The scheme word `extractToken` expects, compared without regard to case. */
  const Bearer := "Bearer"

  /**
   * `extractToken`: an empty header is a missing token; otherwise the header
   * is split at its first space, the word before it must be "Bearer" in any
   * letter case, and the token is everything after that space, verbatim.
   */
  function ExtractToken(authHeader: string): (r: Result<string, AuthError>)
    ensures authHeader == "" ==> r == Failure(MissingToken)
    ensures authHeader != "" && r.Failure? ==> r.error == BadHeaderFormat
    ensures r.Success? ==> exists w :: authHeader == w + " " + r.value && ' ' !in w && EqualFold(w, Bearer)
  {
    if authHeader == "" then Failure(MissingToken)
    else
      match IndexOf(authHeader, ' ')
      case None => Failure(BadHeaderFormat)
      case Some(i) =>
        var word := authHeader[..i];
        if EqualFold(word, Bearer) then
          var token := authHeader[i + 1..];
          assert authHeader == word + " " + token;
          Success(token)
        else Failure(BadHeaderFormat)
  }

  /**
   * The converse of `ExtractToken`'s contract: any spelling of "Bearer",
   * one space and any token (empty, or containing spaces) yields that token.
   */
  lemma ExtractTokenAccepts(w: string, token: string)
    requires ' ' !in w && EqualFold(w, Bearer)
    ensures ExtractToken(w + " " + token) == Success(token)
  {
    var h := w + " " + token;
    assert h[..|w|] == w;
    assert h[|w|] == ' ';
    assert h[|w| + 1..] == token;
  }

  /** A header whose first word is not "Bearer" (in any case) is refused. */
  lemma ExtractTokenRejectsScheme(w: string, rest: string)
    requires ' ' !in w && !EqualFold(w, Bearer)
    ensures ExtractToken(w + " " + rest) == Failure(BadHeaderFormat)
  {
    var h := w + " " + rest;
    assert h[..|w|] == w;
    assert h[|w|] == ' ';
  }

  /**
   * `validateToken`'s error mapping over the JWT library's outcome: an expired
   * token is `ExpiredToken`; any other parse error, a claims value of another
   * type, or a token the library marks invalid is `InvalidToken`.
   */
  function ValidateToken(p: Jwt.ParseOutcome): (r: Result<Jwt.Claims, AuthError>)
    ensures r.Success? <==> p.Parsed? && p.claims.Some? && p.valid
    ensures r.Success? ==> r.value == p.claims.value
    ensures r.Failure? ==> (r.error == ExpiredToken <==> p == Jwt.ParseError(true))
    ensures r.Failure? ==> r.error in {InvalidToken, ExpiredToken}
  {
    match p
    case ParseError(expired) => if expired then Failure(ExpiredToken) else Failure(InvalidToken)
    case Parsed(claims, valid) =>
      if claims.None? || !valid then Failure(InvalidToken) else Success(claims.value)
  }

  /**
   * What authentication concludes for a request: the extracted token, checked
   * by the JWT library (`parse`, given the token and the secret).
   */
  function Authenticate(authHeader: string, secret: string, parse: (string, string) -> Jwt.ParseOutcome): (r: Result<Jwt.Claims, AuthError>)
    ensures authHeader == "" ==> r == Failure(MissingToken)
    ensures r.Success? <==> ExtractToken(authHeader).Success? && ValidateToken(parse(ExtractToken(authHeader).value, secret)).Success?
    ensures r.Success? ==> parse(ExtractToken(authHeader).value, secret) == Jwt.Parsed(Some(r.value), true)
    ensures ExtractToken(authHeader).Failure? ==> r == Failure(ExtractToken(authHeader).error)
    ensures ExtractToken(authHeader).Success? ==> r == ValidateToken(parse(ExtractToken(authHeader).value, secret))
  {
    match ExtractToken(authHeader)
    case Failure(e) => Failure(e)
    case Success(token) => ValidateToken(parse(token, secret))
  }

  /**
   * `AuthMiddleware`: any extraction or validation failure, including an
   * expired token, answers 401 with the error's message and aborts; only on
   * success are the claims stored, in the gin keys and in the request context.
   */
  method AuthMiddleware(ctx: Gin.Context, secret: string, parse: (string, string) -> Jwt.ParseOutcome)
    modifies ctx
    ensures var r := Authenticate(ctx.GetHeader(AuthorizationHeader), secret, parse);
      if r.Failure? then
        && ctx.aborted && ctx.status == 401 && ctx.written
        && ctx.bodies == old(ctx.bodies) + [Gin.JsonBody(Gin.ErrorJson("Unauthorized", Message(r.error)))]
        && ctx.keys == old(ctx.keys) && ctx.requestUser == old(ctx.requestUser)
        && ctx.responseHeader == old(ctx.responseHeader) && ctx.path == old(ctx.path)
      else
        && ctx.keys == old(ctx.keys)[Gin.UserKey := Gin.ClaimsRef(r.value)]
        && ctx.requestUser == Some(r.value)
        && ctx.aborted == old(ctx.aborted) && ctx.status == old(ctx.status) && ctx.written == old(ctx.written)
        && ctx.bodies == old(ctx.bodies) && ctx.responseHeader == old(ctx.responseHeader) && ctx.path == old(ctx.path)
  {
    var token := ExtractToken(ctx.GetHeader(AuthorizationHeader));
    if token.Failure? {
      ctx.JSON(401, Gin.ErrorJson("Unauthorized", Message(token.error)));
      ctx.Abort();
      return;
    }
    var claims := ValidateToken(parse(token.value, secret));
    if claims.Failure? {
      var status := 401;
      if claims.error == ExpiredToken {
        status := 401;
      }
      ctx.JSON(status, Gin.ErrorJson("Unauthorized", Message(claims.error)));
      ctx.Abort();
      return;
    }
    ctx.Set(Gin.UserKey, Gin.ClaimsRef(claims.value));
    ctx.requestUser := Some(claims.value);
  }

  /**
   * `OptionalAuthMiddleware`: never aborts and never answers; the claims are
   * stored only when a token was extracted and validated.
   */
  method OptionalAuthMiddleware(ctx: Gin.Context, secret: string, parse: (string, string) -> Jwt.ParseOutcome)
    modifies ctx
    ensures ctx.aborted == old(ctx.aborted) && ctx.status == old(ctx.status) && ctx.written == old(ctx.written)
    ensures ctx.bodies == old(ctx.bodies) && ctx.responseHeader == old(ctx.responseHeader) && ctx.path == old(ctx.path)
    ensures var r := Authenticate(ctx.GetHeader(AuthorizationHeader), secret, parse);
      if r.Success? then ctx.keys == old(ctx.keys)[Gin.UserKey := Gin.ClaimsRef(r.value)] && ctx.requestUser == Some(r.value)
      else ctx.keys == old(ctx.keys) && ctx.requestUser == old(ctx.requestUser)
  {
    var token := ExtractToken(ctx.GetHeader(AuthorizationHeader));
    if token.Failure? {
      return;
    }
    var claims := ValidateToken(parse(token.value, secret));
    if claims.Failure? {
      return;
    }
    ctx.Set(Gin.UserKey, Gin.ClaimsRef(claims.value));
    ctx.requestUser := Some(claims.value);
  }

  /** Some required role is among the held roles. */
  predicate AnyRoleHeld(required: seq<string>, held: seq<string>) {
    exists i, j :: 0 <= i < |required| && 0 <= j < |held| && held[j] == required[i]
  }

  /**
   * The role scan of `RequireRoles` (lines 128-139): for each required role
   * in turn, look through the held roles, stopping at the first match.
   */
  method HasAnyRole(required: seq<string>, held: seq<string>) returns (hasRole: bool)
    ensures hasRole <==> AnyRoleHeld(required, held)
  {
    hasRole := false;
    var i := 0;
    while i < |required|
      invariant 0 <= i <= |required|
      invariant !hasRole
      invariant forall a, b :: 0 <= a < i && 0 <= b < |held| ==> held[b] != required[a]
    {
      var j := 0;
      while j < |held|
        invariant 0 <= j <= |held|
        invariant !hasRole
        invariant forall b :: 0 <= b < j ==> held[b] != required[i]
      {
        if held[j] == required[i] {
          hasRole := true;
          break;
        }
        j := j + 1;
      }
      if hasRole {
        break;
      }
      i := i + 1;
    }
  }

  /** With no required roles, no user passes the any-of check. */
  lemma NoRequiredRolesForbids(held: seq<string>)
    ensures !AnyRoleHeld([], held)
  {
  }

  /**
   * `RequireRoles(roles...)`: 401 and abort when no claims were stored, 500
   * and abort when the stored value is not a claims record, 403 and abort
   * when no required role is held; otherwise the request passes untouched.
   */
  method RequireRoles(ctx: Gin.Context, roles: seq<string>)
    modifies ctx
    ensures ctx.keys == old(ctx.keys) && ctx.requestUser == old(ctx.requestUser)
    ensures ctx.responseHeader == old(ctx.responseHeader) && ctx.path == old(ctx.path)
    ensures Gin.UserKey !in ctx.keys ==>
      ctx.aborted && ctx.status == 401 && ctx.written &&
      ctx.bodies == old(ctx.bodies) + [Gin.JsonBody(Gin.ErrorJson("Unauthorized", "Authentication required"))]
    ensures Gin.UserKey in ctx.keys && !ctx.keys[Gin.UserKey].ClaimsRef? ==>
      ctx.aborted && ctx.status == 500 && ctx.written &&
      ctx.bodies == old(ctx.bodies) + [Gin.JsonBody(Gin.ErrorJson("Internal Server Error", "Invalid claims format"))]
    ensures Gin.UserKey in ctx.keys && ctx.keys[Gin.UserKey].ClaimsRef? ==>
      if AnyRoleHeld(roles, ctx.keys[Gin.UserKey].claims.roles) then
        ctx.aborted == old(ctx.aborted) && ctx.status == old(ctx.status) &&
        ctx.written == old(ctx.written) && ctx.bodies == old(ctx.bodies)
      else
        ctx.aborted && ctx.status == 403 && ctx.written &&
        ctx.bodies == old(ctx.bodies) + [Gin.JsonBody(Gin.ErrorJson("Forbidden", "Insufficient permissions"))]
  {
    if Gin.UserKey !in ctx.keys {
      ctx.JSON(401, Gin.ErrorJson("Unauthorized", "Authentication required"));
      ctx.Abort();
      return;
    }
    var value := ctx.keys[Gin.UserKey];
    if !value.ClaimsRef? {
      ctx.JSON(500, Gin.ErrorJson("Internal Server Error", "Invalid claims format"));
      ctx.Abort();
      return;
    }
    var hasRole := HasAnyRole(roles, value.claims.roles);
    if !hasRole {
      ctx.JSON(403, Gin.ErrorJson("Forbidden", "Insufficient permissions"));
      ctx.Abort();
      return;
    }
  }

  /**
   * The claims `GenerateToken` signs: the user's id (also the subject), email
   * and roles, the configured issuer, issued and not-before at `now`, and
   * expiry after the access-token lifetime, all at whole-second precision.
   */
  function AccessClaims(userId: string, email: string, roles: seq<string>, cfg: GatewayConfig.JwtConfig, now: int): (c: Jwt.Claims)
    ensures c.userId == userId && c.registered.subject == userId
    ensures c.email == email && c.roles == roles && c.tenantId == ""
    ensures c.registered.issuer == cfg.issuer
    ensures c.registered.issuedAt == c.registered.notBefore
    ensures c.registered.issuedAt.Some? && now - Clock.Second < c.registered.issuedAt.value <= now
    ensures c.registered.issuedAt.value % Clock.Second == 0
    ensures c.registered.expiresAt.Some?
    ensures now + cfg.tokenDuration - Clock.Second < c.registered.expiresAt.value <= now + cfg.tokenDuration
    ensures c.registered.expiresAt.value % Clock.Second == 0
  {
    Jwt.Claims(userId, email, roles, "",
      Jwt.RegisteredClaims(
        cfg.issuer,
        userId,
        Some(Jwt.NumericDate(now + cfg.tokenDuration)),
        Some(Jwt.NumericDate(now)),
        Some(Jwt.NumericDate(now))))
  }

  /**
   * The claims `GenerateRefreshToken` signs: the user's id and subject only
   * (no email, no roles) and the refresh lifetime.
   */
  function RefreshClaims(userId: string, cfg: GatewayConfig.JwtConfig, now: int): (c: Jwt.Claims)
    ensures c.userId == userId && c.registered.subject == userId
    ensures c.email == "" && c.roles == [] && c.tenantId == ""
    ensures c.registered.issuer == cfg.issuer
    ensures c.registered.issuedAt == c.registered.notBefore
    ensures c.registered.issuedAt.Some? && now - Clock.Second < c.registered.issuedAt.value <= now
    ensures c.registered.issuedAt.value % Clock.Second == 0
    ensures c.registered.expiresAt.Some?
    ensures now + cfg.refreshDuration - Clock.Second < c.registered.expiresAt.value <= now + cfg.refreshDuration
    ensures c.registered.expiresAt.value % Clock.Second == 0
  {
    Jwt.Claims(userId, "", [], "",
      Jwt.RegisteredClaims(
        cfg.issuer,
        userId,
        Some(Jwt.NumericDate(now + cfg.refreshDuration)),
        Some(Jwt.NumericDate(now)),
        Some(Jwt.NumericDate(now))))
  }

  /**
   * A refresh token's claims are an access token's for the same user, issued
   * at the same instant, with no email or roles and the refresh lifetime.
   */
  lemma RefreshIsStrippedAccess(userId: string, cfg: GatewayConfig.JwtConfig, now: int)
    ensures RefreshClaims(userId, cfg, now) == AccessClaims(userId, "", [], cfg.(tokenDuration := cfg.refreshDuration), now)
  {
  }

  /**
   * A lifetime of whole seconds is kept exactly: the token expires that long
   * after it is issued.
   */
  lemma {:induction false} WholeSecondLifetime(userId: string, email: string, roles: seq<string>, cfg: GatewayConfig.JwtConfig, now: int, k: int)
    requires cfg.tokenDuration == k * Clock.Second
    ensures AccessClaims(userId, email, roles, cfg, now).registered.expiresAt.value
         == AccessClaims(userId, email, roles, cfg, now).registered.issuedAt.value + cfg.tokenDuration
  {
    var s := Clock.Second;
    assert (now + k * s) % s == now % s by {
      ShiftMod(now, k);
    }
  }

  lemma ShiftMod(t: int, k: int)
    ensures (t + k * Clock.Second) % Clock.Second == t % Clock.Second
  {
    var s := Clock.Second;
    var q := t / s;
    var r := t % s;
    assert t == q * s + r;
    assert t + k * s == (q + k) * s + r;
    assert 0 <= r < s;
  }

  /**
   * `GetUserFromContext`: the claims stored under the "user" key, provided
   * that key is present and holds a claims record.
   */
  function GetUserFromContext(keys: map<string, Gin.Value>): (r: Option<Jwt.Claims>)
    ensures r.Some? <==> Gin.UserKey in keys && keys[Gin.UserKey].ClaimsRef?
    ensures r.Some? ==> keys[Gin.UserKey] == Gin.ClaimsRef(r.value)
  {
    if Gin.UserKey in keys && keys[Gin.UserKey].ClaimsRef? then Some(keys[Gin.UserKey].claims) else None
  }

  /** After a successful authentication the stored user is found again. */
  lemma StoredUserIsFound(keys: map<string, Gin.Value>, c: Jwt.Claims)
    ensures GetUserFromContext(keys[Gin.UserKey := Gin.ClaimsRef(c)]) == Some(c)
  {
  }
}
