# API gateway core, modelled in Dafny

This project models the decision logic of a Go API gateway built on gin. A
request passes through a chain of middlewares and then a reverse proxy:

- **request id**: reuses an incoming `X-Request-ID` or generates a version 4
  UUID as described in section 4.4 of RFC 4122;
- **access log**: a level and a field list for each request;
- **CORS**: settings shaped from the configuration;
- **rate limiter**: an in-memory token bucket per client, or a fixed
  one-minute window counted in Redis;
- **JWT authentication** and **role checks**;
- **dispatcher**: forwards to the backend service named in the configuration,
  after substituting route parameters and rewriting headers, and answers 500,
  502 or 504 itself when it has to.

The configuration is validated when it is loaded.

Time is an integer number of Unix nanoseconds (`Clock`). Strings are Dafny
strings. The gin context is a small class (`Gin.Context`) holding:

- the request's fixed parts: headers, client IP, method, query, user agent,
  route parameters and recorded errors;
- the path;
- the key/value store, with the claims attached to the request;
- the response headers, status, written bodies and abort flag.

Anything the gateway receives from outside is a parameter of the operation
that uses it:

- the result of verifying a JWT signature;
- the counter Redis returns;
- the sixteen random bytes of a UUID;
- the clock readings;
- whether `url.Parse` accepts a URL;
- how the wait for a backend ended.

Modules, one per file:

| module | file |
|---|---|
| `Wrappers` | `wrappers.dfy` |
| `Clock` | `clock.dfy` |
| `Text` | `text.dfy` |
| `Http` | `http.dfy` |
| `Jwt` | `jwt.dfy` |
| `Gin` | `gin.dfy` |
| `GatewayConfig` | `config.dfy` |
| `Auth` | `auth.dfy` |
| `RequestId` | `requestid.dfy` |
| `Cors` | `cors.dfy` |
| `AccessLog` | `logger.dfy` |
| `RateLimit` | `ratelimit.dfy` |
| `Proxy` | `proxy.dfy` |

## Model

| member | source | states |
|---|---|---|
| RateLimit.RateLimiter.constructor | middleware/ratelimit.go:32-61 | Redis is used only when a host is configured and the ping succeeded; the bucket map starts empty |
| RateLimit.RateLimiter.AllowLocal | middleware/ratelimit.go:152-200 | an unseen client gets a full bucket stamped with the first clock reading; only that client's bucket changes; the new bucket and the decision are one refill-then-admit step; every bucket stays within the allowance |
| RateLimit.Refill | middleware/ratelimit.go:167-183 | after a minute or more, the allowance is full again and the refill time is `now`; otherwise tokens grow by the pro-rata amount, capped at the allowance, and the refill time moves only when a token was earned |
| RateLimit.Earned | middleware/ratelimit.go:175 | the tokens earned over `elapsed` are never negative, and are positive exactly when `elapsed * rpm` reaches one minute |
| RateLimit.Admit | middleware/ratelimit.go:186-197 | admitted iff a token is left, and then exactly one is taken; remaining is the tokens left and never negative; reset is the last refill plus one minute |
| RateLimit.StepInvariant | middleware/ratelimit.go:171-189 | a step keeps the tokens within `[0, rpm]` (at most `rpm` when `rpm` is negative), and the refill time only moves forward, up to `now` |
| RateLimit.IdleMinuteRestores | middleware/ratelimit.go:171-197 | after a full idle minute the request is admitted with `rpm - 1` remaining and a reset one minute from now |
| RateLimit.NoOverAdmission | middleware/ratelimit.go:186-189 | while no call earns a token, a run of calls admits exactly min(calls, initial tokens) |
| RateLimit.RateLimiter.Cleanup | middleware/ratelimit.go:229-242 | exactly the buckets idle for strictly more than ten minutes are deleted; every other entry is kept unchanged; every kept bucket stays within its bounds |
| RateLimit.Reap | middleware/ratelimit.go:234-241 | an entry is kept iff it is not stale, and a kept entry is unchanged |
| RateLimit.ReapIdempotent | middleware/ratelimit.go:229-242 | a second cleanup at the same instant removes nothing more |
| RateLimit.ReapKeepsRecent | middleware/ratelimit.go:237 | a bucket refilled within the last ten minutes survives cleanup |
| RateLimit.RedisKey | middleware/ratelimit.go:119 | the counter's key is `ratelimit:` followed by the client id |
| RateLimit.RedisKeyInjective | middleware/ratelimit.go:119 | two clients never share a window counter |
| RateLimit.WindowEnd | middleware/ratelimit.go:120-145 | the window is the whole minute that contains `now`, and the reset is its end |
| RateLimit.AllowRedis | middleware/ratelimit.go:134-148 | a store error is passed on; otherwise the request is admitted iff count ≤ limit, remaining is max(0, limit − count), and reset is the window's end |
| RateLimit.Pipeline | middleware/ratelimit.go:126-134 | INCR returns the live count plus one (a missing or expired key counts as zero); after EXPIREAT the key holds that count, expiring at the window's end; other keys are unchanged |
| RateLimit.WindowBound | middleware/ratelimit.go:119-146 | within one window a client is admitted exactly as often as the counter has room below the limit, so never more than `limit` times |
| RateLimit.GetClientID | middleware/ratelimit.go:203-216 | the id is `user:` plus the user id when claims are stored, else `ip:` plus a non-empty X-Forwarded-For, else `ip:` plus the client IP |
| RateLimit.ClientIdsSeparate | middleware/ratelimit.go:203-216 | user ids and IP ids never collide, and each prefix is injective |
| RateLimit.RateHeaders | middleware/ratelimit.go:91-96 | Limit, Remaining and Reset (in Unix seconds) are set, plus Retry-After on a denial; each holds exactly one value, its number in decimal, which reads back as that number; no other header changes |
| RateLimit.RateLimiter.Middleware | middleware/ratelimit.go:73-107 | disabled: nothing changes; store error: nothing changes (fail open); otherwise the rate headers are set, and a denial answers 429 with the fixed message and aborts; the map changes only on the local path; every bucket stays within its bounds and none was refilled after `now` |
| RateLimit.RateLimiter.Apply | middleware/ratelimit.go:91-103 | the rate headers are set, and the 429 reply and the abort happen exactly on a denial |
| GatewayConfig.ValidateConfig | config/config.go:170-193 | no error iff every guard passes; otherwise the first failing guard is reported, in the fixed order port, empty secret, default secret in production, rpm, burst |
| GatewayConfig.DisabledRateLimitUnchecked | config/config.go:183-190 | when rate limiting is disabled, rpm and burst do not affect the verdict |
| GatewayConfig.DefaultSecretOnlyRefusedInProduction | config/config.go:179-181 | with a valid port, the default secret is refused iff the environment is `production` |
| GatewayConfig.InitMaps | config/config.go:112-118 | both service maps become allocated with the same entries; an allocated map is kept as is; nothing else changes |
| GatewayConfig.FinishLoad | config/config.go:112-125 | a load succeeds iff validation passes; on success the result is the decoded record with only its nil maps replaced by empty ones; on failure the validation error is wrapped |
| GatewayConfig.DefaultConfig | config/config.go:128-168 | the defaults (port 8080, development, rpm 100, burst 20, default secret) pass validation |
| GatewayConfig.DefaultsRefusedInProduction | config/config.go:179-181 | the defaults are refused in production, because of the default secret |
| GatewayConfig.GetService | config/config.go:195-199 | found iff the name is present, together with its entry; otherwise the zero entry |
| GatewayConfig.GetExternalService | config/config.go:201-205 | found iff the name is present, together with its entry; otherwise the zero entry |
| Auth.ExtractToken | middleware/auth.go:155-168 | an empty header gives the missing-token error; any other failure is a format error; on success the header is a space-free scheme equal to `Bearer` ignoring case, one space, then the token |
| Auth.ExtractTokenAccepts | middleware/auth.go:162-167 | any case variant of `Bearer`, a space and any token (even empty, even with spaces) yields exactly that token |
| Auth.ExtractTokenRejectsScheme | middleware/auth.go:163-164 | a first word other than `Bearer` gives the format error |
| Auth.ValidateToken | middleware/auth.go:180-192 | succeeds iff parsing gave claims and a valid token; an expiry gives the expired error; any other failure gives the invalid error |
| Auth.Authenticate | middleware/auth.go:44-66 | succeeds iff extraction and validation both succeed, with the parsed claims; a failed extraction passes its error on, otherwise the result is the validation's |
| Auth.AuthMiddleware | middleware/auth.go:42-75 | on failure: 401 with the error's message, abort, no claims stored; on success: the claims are stored in the context and the request, with no reply |
| Auth.OptionalAuthMiddleware | middleware/auth.go:79-102 | never replies or aborts; stores claims exactly when authentication succeeds |
| Auth.HasAnyRole | middleware/auth.go:127-139 | the nested loops find a role iff some required role is among the held roles |
| Auth.NoRequiredRolesForbids | middleware/auth.go:128-141 | an empty list of required roles always forbids |
| Auth.RequireRoles | middleware/auth.go:105-152 | no claims: 401; claims of the wrong type: 500; no matching role: 403; each aborts; a match passes untouched |
| Auth.AccessClaims | middleware/auth.go:196-209 | subject and user id are the user; issued-at equals not-before and is the whole second holding `now`; expiry is the whole second holding `now + TokenDuration`; the issuer is the configured one |
| Auth.RefreshClaims | middleware/auth.go:216-227 | as for access claims (subject, issuer, whole-second issued-at equal to not-before), with the whole second holding `now + RefreshDuration` as expiry, and no email or roles |
| Auth.RefreshIsStrippedAccess | middleware/auth.go:196-227 | refresh claims are access claims with email and roles cleared and the refresh duration |
| Auth.WholeSecondLifetime | middleware/auth.go:205-207 | for a whole-second duration, expiry minus issued-at is exactly that duration |
| Auth.GetUserFromContext | middleware/auth.go:234-242 | claims are found iff the `user` key holds a claims record |
| Auth.StoredUserIsFound | middleware/auth.go:234-242 | claims stored by the middleware are found again |
| RequestId.Stamped | middleware/requestid.go:18-19 | byte 6 gets version nibble 4 and keeps its low nibble; byte 8 gets variant bits 10 and keeps its low six bits; the other 14 bytes are unchanged |
| RequestId.UuidRoundTrip | middleware/requestid.go:20 | parsing the 8-4-4-4-12 rendering gives the 16 bytes back |
| RequestId.FormatUuidShape | middleware/requestid.go:20 | the rendering is 36 characters, with dashes at 8, 13, 18 and 23 and lowercase hex elsewhere |
| RequestId.GenerateUuid | middleware/requestid.go:15-21 | the id renders the stamped bytes, parses back to them, has UUID shape, a `4` at index 14 and one of `89ab` at index 19 |
| RequestId.VersionAndVariantDigits | middleware/requestid.go:18-20 | the version and variant bits appear as the digits at indices 14 and 19 |
| RequestId.RequestID | middleware/requestid.go:24-40 | a non-empty incoming X-Request-ID is reused verbatim, otherwise a generated one is used; the same id goes to the context key and the response header; nothing else changes |
| Cors.Contains | middleware/cors.go:31-38 | true iff some element equals the item |
| Cors.Settings | middleware/cors.go:11-25 | all origins are allowed iff `*` is listed, in which case the origin list is dropped; otherwise it is copied; MaxAge is that many seconds; methods, headers, exposed headers and credentials are copied |
| AccessLog.Classify | middleware/logger.go:55-65 | ≥ 500 is Error "Server error"; 400–499 is Warn "Client error"; 300–399 is Info "Redirection"; anything below is Info "Request completed" |
| AccessLog.ClassifyMonotone | middleware/logger.go:56-65 | a higher status never logs at a lower severity |
| AccessLog.StoredRequestId | middleware/logger.go:24 | the stored request id when it is a string, otherwise empty |
| AccessLog.Logger | middleware/logger.go:11-67 | the level and message follow the final status; the seven base fields come first, in order, followed by request_id only when non-empty, the user fields only with claims, and the error field only with errors |
| AccessLog.OptionalFieldsIff | middleware/logger.go:37-52 | each optional field is present iff its condition holds |
| AccessLog.BaseFieldsKeys | middleware/logger.go:27-35 | no base field uses an optional field's key |
| Proxy.ProxyHandler.constructor | handlers/proxy.go:26-37 | the registry is exactly the one `initProxies` builds from the configured services |
| Proxy.ProxyHandler.InitProxies | handlers/proxy.go:40-77 | a service gets a proxy iff its base URL is non-empty and parses, aimed at the parsed URL |
| Proxy.Registry | handlers/proxy.go:41-71 | a name is registered iff its base URL is non-empty and parses |
| Proxy.ForwardingHeaders | handlers/proxy.go:85-95 | X-Forwarded-Host, X-Origin-Host and X-Gateway (`api-gateway`) each hold exactly the one new value; X-Real-IP becomes exactly the remote address when absent or empty, and is otherwise kept; no other header changes |
| Proxy.ModifyRequestAsWritten | handlers/proxy.go:80-96 | host, URL host and scheme become the target's; X-Forwarded-Host gets the target host, since it is read after the overwrite |
| Proxy.ForwardedHostRepeatsTarget | handlers/proxy.go:81-87 | as written, X-Forwarded-Host always equals X-Origin-Host, and never the client's host when that differs from the target |
| Proxy.ForwardedHostExample | handlers/proxy.go:81-86 | a concrete request whose client host is lost |
| Proxy.ModifyRequest | handlers/proxy.go:80-96 | as intended: the same rewrite, with X-Forwarded-Host carrying the client's original host |
| Proxy.ModifyResponse | handlers/proxy.go:99-104 | only X-Gateway is stamped on the response, and no error is returned |
| Proxy.BadGatewayBody | handlers/proxy.go:117 | the body is the fixed prefix, the error text and the fixed suffix |
| Proxy.BadGatewayBodyInjective | handlers/proxy.go:117 | different errors give different bodies |
| Proxy.ErrorHandler | handlers/proxy.go:107-119 | JSON content type, status 502 and the body embedding the error |
| Proxy.Settle | handlers/proxy.go:124-171 | unknown service: 500; timeout with nothing written: 504; otherwise the handler writes nothing |
| Proxy.SettleRespectsWrites | handlers/proxy.go:165-170 | a 504 only ever answers a timeout on an unwritten response |
| Proxy.ProxyHandler.ProxyToService | handlers/proxy.go:122-173 | an unknown service gets 500 and nothing is forwarded; otherwise the request goes to the service's target, under the wildcard path when one is given, and the outcome under the service's timeout settles the reply |
| Proxy.ProxyHandler.ProxyToServiceWithPath | handlers/proxy.go:176-229 | as `ProxyToService`, with the path set to the substituted target path |
| Proxy.ReplacePathParams | handlers/proxy.go:232-238 | each parameter in turn replaces every occurrence of `:key` in the path built so far |
| Proxy.SubstituteNoParams | handlers/proxy.go:232-237 | with no parameters the template is unchanged |
| Proxy.SubstituteAbsent | handlers/proxy.go:233-236 | a template with no placeholder of any parameter comes back identical |
| Proxy.SubstituteTrailing | handlers/proxy.go:234-235 | a single trailing placeholder, after a part without `:`, is replaced by the value |
| Proxy.SubstituteExample | handlers/proxy.go:232-238 | `/tasks/:id` with `id=42` becomes `/tasks/42` |
| Proxy.ProxyHandler.GetServiceTimeout | handlers/proxy.go:241-246 | the service's own timeout iff it exists and is positive, otherwise 30 s; always positive |
| Proxy.NotFound | handlers/proxy.go:249-255 | 404 with the fixed message and the path |
| Proxy.MethodMessage | handlers/proxy.go:261 | the 405 message names the method |
| Proxy.MethodNotAllowed | handlers/proxy.go:258-264 | 405 with a message naming the method, and the path |

## Left out

- Concurrency is not modelled. This covers the `sync` locks of the rate limiter, the goroutine that serves the proxy, and the `select` between it and the timer. The race becomes an outcome value, `Proxy.Race`, passed in as a function of the timeout.
- `RateLimit.Earned` computes the refill with integer division truncating toward zero, not with floating point. Where the float product rounds at a whole token, the result can differ by one.
- Redis I/O (connection, ping, pipeline) is a parameter:
  - the ping result is `pingOk`;
  - the pipeline's reply is `StoreReply`.

  `RateLimit.Pipeline` is a model of the store, used only to state the window bound. Its INCR restarts at zero on an expired key.
- The `cleanupRoutine` ticker is not modelled; `Cleanup` is the work done on each tick. `Close` is not modelled, since it only closes the Redis client.
- JWT parsing, HMAC signing and verification are replaced by `parse`. That function returns either an expiry error, another error, or claims with a validity flag.
  - `GenerateToken`/`GenerateRefreshToken` are modelled up to the claims record they sign.
  - `RegisteredClaims` carries only the five fields set here.
- `crypto/rand` is the 16-byte parameter `random`. A failed read is not modelled.
- The clock is a parameter: the readings of `allowLocal`, of `allowRedis`, of `Retry-After`, of token generation, and the request latency.
- Viper file and environment loading is left out. `FinishLoad` starts from the decoded record: it applies the nil-map step and then validation. The error messages are `ConfigError` values rather than formatted strings.
- `httputil.ReverseProxy` is left out: the original director's joining of the target path and query, the copying of the backend response, and the calls into the error handler. `url.Parse` is the parameter `parse`.
- `logRequestBody` is left out, since it is I/O. The zap log calls are left out as well. `Logger` returns the level, message and fields it would log, and takes the rendering of the context's errors as `errorsText`.
- Cors.Settings: `MaxAge` is the configured seconds times one second in unbounded integers; Go's `time.Duration` multiplication wraps around in 64 bits once the setting exceeds about 9.2e9 seconds, which is not modelled.
- Gin's response writer does not record the order of writes, so the model does not state that the rate headers precede the 429 body.
- `cors.New` and the CORS negotiation itself are left out. `Settings` is the configuration handed to it.
- Headers are not canonicalised: header names are used exactly as written in the source.
- `strings.EqualFold` is modelled with ASCII case folding. Against `Bearer` this agrees with Unicode folding, since the only non-ASCII characters that fold onto ASCII letters (the Kelvin sign and the long s) fold onto letters `Bearer` lacks.
- RateLimit.RateLimiter.AllowLocal and RateLimit.RateLimiter.Middleware require clock readings that never go backwards: the readings are in order, and no bucket was refilled after them. Go's monotonic clock provides this.
- Gin's response writer is not modelled: writes made by the backend, and a status written after the body, are not tracked.
- `routes/routes.go`, `main.go` and the health handlers are left out. They are wiring and constant payloads.

## Findings

| source | as written | input that shows it | evidently intended | confidence | as-written member | corrected member |
|---|---|---|---|---|---|---|
| handlers/proxy.go:81-86 | `req.Host` is overwritten with the target host before it is copied into `X-Forwarded-Host`, so that header always repeats `X-Origin-Host` | a request with Host `gateway.example.com` to a backend at `users:8081` reaches the backend with `X-Forwarded-Host: users:8081` | `X-Forwarded-Host` carries the host the client asked for, read before the overwrite | medium, not executed | Proxy.ModifyRequestAsWritten, Proxy.ForwardedHostRepeatsTarget, Proxy.ForwardedHostExample | Proxy.ModifyRequest |
