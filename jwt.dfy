/**
 * The JWT claim records the gateway issues and reads back, and the shape of
 * what the JWT library reports when it parses a token. Parsing, signing and
 * signature checking themselves belong to the library and are not modelled.
 */
module Jwt {
  import opened Wrappers
  import Clock

  /** The registered claims the gateway fills in (`jwt.RegisteredClaims`). */
  datatype RegisteredClaims = RegisteredClaims(
    issuer: string,
    subject: string,
    expiresAt: Option<int>,
    notBefore: Option<int>,
    issuedAt: Option<int>)

  /** The gateway's own claims (`middleware.Claims`). */
  datatype Claims = Claims(
    userId: string,
    email: string,
    roles: seq<string>,
    tenantId: string,
    registered: RegisteredClaims)

  /**
   * `jwt.NewNumericDate(t)`: the library keeps whole seconds only
   * (its `TimePrecision` is one second).
   */
  function NumericDate(t: int): (d: int)
    ensures d <= t < d + Clock.Second
    ensures d % Clock.Second == 0
  {
    Clock.Truncate(t, Clock.Second)
  }

  /**
   * What `jwt.ParseWithClaims` reports for a token string and a key:
   * a parse error (expired or any other), or a token with its claims value
   * (absent when it is not a `*Claims`) and its validity flag.
   */
  datatype ParseOutcome =
    | ParseError(expired: bool)
    | Parsed(claims: Option<Claims>, valid: bool)
}
