/**
 * The admission controller (middleware/ratelimit.go): an in-memory token
 * bucket per client with a reaper for idle buckets, a fixed-window counter
 * kept in Redis, the choice of client identity, and the middleware that
 * turns a decision into headers, a 429 reply or a pass.
 */
module RateLimit {
  import opened Wrappers
  import Clock
  import Text
  import Http
  import Gin
  import Auth
  import GatewayConfig

  /** A client's bucket (`clientLimit`): its tokens and the instant of its last refill. */
  datatype Bucket = Bucket(tokens: int, lastRefill: int)

  /** What `allow` reports: admitted or not, the tokens left and the reset instant. */
  datatype Decision = Decision(allowed: bool, remaining: int, reset: int)

  /** Buckets idle for longer than this are removed by `cleanup`. */
  const IdleLimit: int := 10 * Clock.Minute

  // ---- the token bucket ----

  /**
   * Tokens earned over `elapsed` at `rpm` per minute: the fraction of a
   * minute elapsed times `rpm`, cut toward zero.
   */
  function Earned(elapsed: int, rpm: int): (n: int)
    ensures elapsed >= 0 && rpm >= 0 ==> n >= 0
    ensures elapsed >= 0 && rpm >= 0 ==> (n > 0 <==> elapsed * rpm >= Clock.Minute)
  {
    Clock.TruncDiv(elapsed * rpm, Clock.Minute)
  }

  /**
   * The refill at the start of `allowLocal`: a whole minute or more since the
   * last refill restores the full allowance; a shorter wait earns tokens
   * pro rata up to the allowance, and moves the refill instant only when at
   * least one token was earned.
   */
  function Refill(b: Bucket, rpm: int, now: int): (r: Bucket)
    ensures now - b.lastRefill >= Clock.Minute ==> r == Bucket(rpm, now)
    ensures now - b.lastRefill < Clock.Minute ==>
      var add := Earned(now - b.lastRefill, rpm);
      && r.tokens == (if b.tokens + add > rpm then rpm else b.tokens + add)
      && r.lastRefill == (if add > 0 then now else b.lastRefill)
  {
    var elapsed := now - b.lastRefill;
    if elapsed >= Clock.Minute then Bucket(rpm, now)
    else
      var add := Earned(elapsed, rpm);
      var tokens := if b.tokens + add > rpm then rpm else b.tokens + add;
      Bucket(tokens, if add > 0 then now else b.lastRefill)
  }

  /**
   * The admission after the refill: a request is admitted exactly when a
   * token is left, and then costs exactly one; the tokens reported are never
   * negative and the reset is one minute after the last refill.
   */
  function Admit(b: Bucket): (r: (Bucket, Decision))
    ensures r.1.allowed <==> b.tokens > 0
    ensures r.0.tokens == (if b.tokens > 0 then b.tokens - 1 else b.tokens)
    ensures r.0.lastRefill == b.lastRefill
    ensures r.1.remaining >= 0 && (r.0.tokens >= 0 ==> r.1.remaining == r.0.tokens)
    ensures r.1.reset == b.lastRefill + Clock.Minute
  {
    var allowed := b.tokens > 0;
    var tokens := if allowed then b.tokens - 1 else b.tokens;
    var remaining := if tokens < 0 then 0 else tokens;
    (Bucket(tokens, b.lastRefill), Decision(allowed, remaining, b.lastRefill + Clock.Minute))
  }

  /** One call of `allowLocal` on a bucket: refill, then admit. */
  function Step(b: Bucket, rpm: int, now: int): (Bucket, Decision) {
    Admit(Refill(b, rpm, now))
  }

  /** The bucket a client's request works on: its own, or a full one created at `createdAt`. */
  function Fetch(limits: map<string, Bucket>, clientID: string, rpm: int, createdAt: int): (b: Bucket)
    ensures clientID in limits ==> b == limits[clientID]
    ensures clientID !in limits ==> b == Bucket(rpm, createdAt)
  {
    if clientID in limits then limits[clientID] else Bucket(rpm, createdAt)
  }

  /** A bucket within the allowance; never negative when the allowance is not. */
  predicate InRange(b: Bucket, rpm: int) {
    b.tokens <= rpm && (rpm >= 0 ==> b.tokens >= 0)
  }

  /**
   * A step keeps the bucket within the allowance, and with a clock that does
   * not run backwards the refill instant only moves forward, up to `now`.
   */
  lemma StepInvariant(b: Bucket, rpm: int, now: int)
    requires InRange(b, rpm) && b.lastRefill <= now
    ensures InRange(Step(b, rpm, now).0, rpm)
    ensures b.lastRefill <= Step(b, rpm, now).0.lastRefill <= now
  {
  }

  /** A whole minute of inactivity gives a full allowance back, whatever was left. */
  lemma {:induction false} IdleMinuteRestores(b: Bucket, rpm: int, now: int)
    requires now - b.lastRefill >= Clock.Minute && rpm > 0
    ensures Step(b, rpm, now).1 == Decision(true, rpm - 1, now + Clock.Minute)
    ensures Step(b, rpm, now).0 == Bucket(rpm - 1, now)
  {
    assert Refill(b, rpm, now) == Bucket(rpm, now);
  }

  /** The calls of one client at the given instants, in order: the final bucket and how many were admitted. */
  function Run(b: Bucket, rpm: int, times: seq<int>): (Bucket, nat)
    decreases |times|
  {
    if |times| == 0 then (b, 0)
    else
      var (b1, d) := Step(b, rpm, times[0]);
      var (bn, k) := Run(b1, rpm, times[1..]);
      (bn, k + (if d.allowed then 1 else 0))
  }

  /**
   * No over-admission: while no call within the minute comes late enough
   * to earn a token, a run of calls admits exactly as many as there were tokens at the start,
   * or every call when there are fewer calls.
   */
  lemma {:induction false} NoOverAdmission(b: Bucket, rpm: int, times: seq<int>)
    requires 0 <= b.tokens <= rpm
    requires forall i :: 0 <= i < |times| ==> 0 <= times[i] - b.lastRefill < Clock.Minute && Earned(times[i] - b.lastRefill, rpm) == 0
    ensures Run(b, rpm, times).1 == if |times| < b.tokens then |times| else b.tokens
    ensures Run(b, rpm, times).0.lastRefill == b.lastRefill
    decreases |times|
  {
    if |times| > 0 {
      assert Refill(b, rpm, times[0]) == b;
      var b1 := Step(b, rpm, times[0]).0;
      assert forall i :: 0 <= i < |times[1..]| ==> times[1..][i] == times[i + 1];
      NoOverAdmission(b1, rpm, times[1..]);
    }
  }

  /** A bucket is stale once it was last refilled more than ten minutes before `now`. */
  predicate Stale(b: Bucket, now: int) {
    now - b.lastRefill > IdleLimit
  }

  /** What `cleanup` leaves: exactly the entries that are not stale, unchanged. */
  function Reap(limits: map<string, Bucket>, now: int): (r: map<string, Bucket>)
    ensures forall id :: id in r <==> id in limits && !Stale(limits[id], now)
    ensures forall id :: id in r ==> r[id] == limits[id]
  {
    map id | id in limits && !Stale(limits[id], now) :: limits[id]
  }

  /** Reaping twice at the same instant removes nothing more. */
  lemma ReapIdempotent(limits: map<string, Bucket>, now: int)
    ensures Reap(Reap(limits, now), now) == Reap(limits, now)
  {
  }

  /** A bucket refilled within the last ten minutes survives a reap. */
  lemma ReapKeepsRecent(limits: map<string, Bucket>, now: int, id: string)
    requires id in limits && now - limits[id].lastRefill <= IdleLimit
    ensures id in Reap(limits, now) && Reap(limits, now)[id] == limits[id]
  {
  }

  // ---- the fixed window kept in Redis ----

  /** The Redis key of a client's counter. */
  function RedisKey(clientID: string): (k: string)
    ensures k == "ratelimit:" + clientID
  {
    "ratelimit:" + clientID
  }

  /** Two clients never share a window counter. */
  lemma RedisKeyInjective(a: string, b: string)
    requires RedisKey(a) == RedisKey(b)
    ensures a == b
  {
    assert a == RedisKey(a)[|"ratelimit:"|..] && b == RedisKey(b)[|"ratelimit:"|..];
  }

  /** The end of the window holding `now`: the next whole minute. */
  function WindowEnd(now: int): (e: int)
    ensures e - Clock.Minute <= now < e
    ensures e % Clock.Minute == 0
  {
    Clock.Truncate(now, Clock.Minute) + Clock.Minute
  }

  /** What the pipeline of `INCR` and `EXPIREAT` returns: the counter after the increment, or an error. */
  datatype StoreReply = Count(n: int) | StoreFailure(err: string)

  /**
   * `allowRedis` after the pipeline ran: admitted exactly when the counter
   * is within the limit, the remaining allowance is the limit minus the
   * count but never below zero, the reset is the window's end; a store
   * error is passed on.
   */
  function AllowRedis(limit: int, now: int, reply: StoreReply): (r: Result<Decision, string>)
    ensures reply.StoreFailure? <==> r.Failure?
    ensures reply.StoreFailure? ==> r.error == reply.err
    ensures reply.Count? ==> r.Success? && (r.value.allowed <==> reply.n <= limit)
    ensures reply.Count? ==> r.value.remaining == (if limit - reply.n < 0 then 0 else limit - reply.n)
    ensures reply.Count? ==> r.value.reset == WindowEnd(now)
  {
    match reply
    case StoreFailure(err) => Failure(err)
    case Count(count) =>
      var remaining := if limit - count < 0 then 0 else limit - count;
      Success(Decision(count <= limit, remaining, WindowEnd(now)))
  }

  /** A counter in the store with its expiry instant. */
  datatype Counter = Counter(count: int, expireAt: int)

  /**
   * The pipeline on a store: `INCR` starts from zero when the key is absent
   * or has expired, and `EXPIREAT` sets the expiry to the window's end.
   */
  function Pipeline(store: map<string, Counter>, key: string, now: int): (r: (map<string, Counter>, int))
    ensures r.1 == LiveCount(store, key, now) + 1
    ensures key in r.0 && r.0[key] == Counter(r.1, WindowEnd(now))
    ensures forall k :: k in store && k != key ==> k in r.0 && r.0[k] == store[k]
  {
    var live := key in store && store[key].expireAt > now;
    var count := (if live then store[key].count else 0) + 1;
    (store[key := Counter(count, WindowEnd(now))], count)
  }

  /** The calls of one client against the store at the given instants: how many were admitted. */
  function RedisRun(store: map<string, Counter>, key: string, limit: int, times: seq<int>): nat
    decreases |times|
  {
    if |times| == 0 then 0
    else
      var (s1, count) := Pipeline(store, key, times[0]);
      var admitted := if AllowRedis(limit, times[0], Count(count)).value.allowed then 1 else 0;
      admitted + RedisRun(s1, key, limit, times[1..])
  }

  /** The count a key holds at `now`: its counter while live, zero otherwise. */
  function LiveCount(store: map<string, Counter>, key: string, now: int): int {
    if key in store && store[key].expireAt > now then store[key].count else 0
  }

  /**
   * Within one window a client is admitted at most `limit` times in all:
   * exactly the calls that bring the counter up to the limit.
   */
  lemma {:induction false} WindowBound(store: map<string, Counter>, key: string, limit: int, times: seq<int>, w: int)
    requires forall i :: 0 <= i < |times| ==> WindowEnd(times[i]) == w
    requires forall i :: 0 <= i < |times| ==> LiveCount(store, key, times[i]) == LiveCount(store, key, if |times| > 0 then times[0] else 0)
    requires |times| > 0 ==> LiveCount(store, key, times[0]) >= 0
    ensures |times| > 0 ==> RedisRun(store, key, limit, times) == Clamp(limit - LiveCount(store, key, times[0]), |times|)
    ensures RedisRun(store, key, limit, times) <= (if limit < 0 then 0 else limit)
    decreases |times|
  {
    if |times| > 0 {
      var c := LiveCount(store, key, times[0]);
      var (s1, count) := Pipeline(store, key, times[0]);
      assert count == c + 1;
      if |times| > 1 {
        var rest := times[1..];
        assert forall i :: 0 <= i < |rest| ==> rest[i] == times[i + 1];
        assert forall i :: 0 <= i < |rest| ==> LiveCount(s1, key, rest[i]) == c + 1 by {
          forall i | 0 <= i < |rest|
            ensures LiveCount(s1, key, rest[i]) == c + 1
          {
            assert WindowEnd(rest[i]) == w && WindowEnd(times[0]) == w;
          }
        }
        WindowBound(s1, key, limit, rest, w);
      }
    }
  }

  /** The number of calls admitted when `room` counts are left before the limit and `n` calls come. */
  function Clamp(room: int, n: nat): (k: nat)
    ensures k <= n && (room >= 0 ==> k <= room)
    ensures room <= 0 ==> k == 0
  {
    if room <= 0 then 0 else if n < room then n else room
  }

  // ---- identity ----

  const UserPrefix := "user:"
  const IpPrefix := "ip:"
  const ForwardedFor := "X-Forwarded-For"

  /**
   * `getClientID`: the authenticated user when there is one, otherwise the
   * first value of the `X-Forwarded-For` header, whole and as sent (it may
   * list several addresses), otherwise the client IP.
   */
  function GetClientID(ctx: Gin.Context): (id: string)
    reads ctx
    ensures Auth.GetUserFromContext(ctx.keys).Some? ==> id == UserPrefix + Auth.GetUserFromContext(ctx.keys).value.userId
    ensures Auth.GetUserFromContext(ctx.keys).None? && ctx.GetHeader(ForwardedFor) != "" ==> id == IpPrefix + ctx.GetHeader(ForwardedFor)
    ensures Auth.GetUserFromContext(ctx.keys).None? && ctx.GetHeader(ForwardedFor) == "" ==> id == IpPrefix + ctx.clientIp
  {
    match Auth.GetUserFromContext(ctx.keys)
    case Some(claims) => UserPrefix + claims.userId
    case None =>
      var xff := ctx.GetHeader(ForwardedFor);
      if xff != "" then IpPrefix + xff else IpPrefix + ctx.clientIp
  }

  /**
   * Users and addresses never share a bucket, and two identities share one
   * only when they name the same user or the same address.
   */
  lemma {:induction false} ClientIdsSeparate(u: string, v: string, a: string, b: string)
    ensures UserPrefix + u != IpPrefix + a
    ensures UserPrefix + u == UserPrefix + v ==> u == v
    ensures IpPrefix + a == IpPrefix + b ==> a == b
  {
    assert (UserPrefix + u)[0] == 'u' && (IpPrefix + a)[0] == 'i';
    if UserPrefix + u == UserPrefix + v {
      assert u == (UserPrefix + u)[|UserPrefix|..] && v == (UserPrefix + v)[|UserPrefix|..];
    }
    if IpPrefix + a == IpPrefix + b {
      assert a == (IpPrefix + a)[|IpPrefix|..] && b == (IpPrefix + b)[|IpPrefix|..];
    }
  }

  // ---- the headers of a decision ----

  const LimitHeader := "X-RateLimit-Limit"
  const RemainingHeader := "X-RateLimit-Remaining"
  const ResetHeader := "X-RateLimit-Reset"
  const RetryAfterHeader := "Retry-After"

  /** The whole seconds until `reset` as seen at `now`, cut toward zero. */
  function RetryAfter(reset: int, now: int): int {
    Clock.TruncDiv(reset - now, Clock.Second)
  }

  /**
   * The response headers a decision adds: the limit, the remaining
   * allowance and the reset second, and on a denial the seconds to wait.
   * Each value reads back as the number it carries; no other header changes.
   */
  function RateHeaders(h: Http.Header, limit: int, d: Decision, now: int): (r: Http.Header)
    ensures LimitHeader in r && r[LimitHeader] == [Text.Itoa(limit)]
    ensures RemainingHeader in r && r[RemainingHeader] == [Text.Itoa(d.remaining)]
    ensures ResetHeader in r && r[ResetHeader] == [Text.Itoa(Clock.UnixSeconds(d.reset))]
    ensures !d.allowed ==> RetryAfterHeader in r && r[RetryAfterHeader] == [Text.Itoa(RetryAfter(d.reset, now))]
    ensures Text.ParseInt(Http.Get(r, LimitHeader)) == Some(limit)
    ensures Text.ParseInt(Http.Get(r, RemainingHeader)) == Some(d.remaining)
    ensures Text.ParseInt(Http.Get(r, ResetHeader)) == Some(Clock.UnixSeconds(d.reset))
    ensures !d.allowed ==> Text.ParseInt(Http.Get(r, RetryAfterHeader)) == Some(RetryAfter(d.reset, now))
    ensures d.allowed ==> (RetryAfterHeader in r <==> RetryAfterHeader in h) && (RetryAfterHeader in h ==> r[RetryAfterHeader] == h[RetryAfterHeader])
    ensures r.Keys == h.Keys + {LimitHeader, RemainingHeader, ResetHeader} + (if d.allowed then {} else {RetryAfterHeader})
    ensures forall k :: k in h && k !in {LimitHeader, RemainingHeader, ResetHeader, RetryAfterHeader} ==> r[k] == h[k]
  {
    Text.ItoaRoundTrip(limit);
    Text.ItoaRoundTrip(d.remaining);
    Text.ItoaRoundTrip(Clock.UnixSeconds(d.reset));
    var h1 := Http.Set(h, LimitHeader, Text.Itoa(limit));
    var h2 := Http.Set(h1, RemainingHeader, Text.Itoa(d.remaining));
    var h3 := Http.Set(h2, ResetHeader, Text.Itoa(Clock.UnixSeconds(d.reset)));
    if d.allowed then h3
    else
      Text.ItoaRoundTrip(RetryAfter(d.reset, now));
      Http.Set(h3, RetryAfterHeader, Text.Itoa(RetryAfter(d.reset, now)))
  }

  /** The body of a 429 reply. */
  const TooManyRequests := Gin.ErrorJson("Too Many Requests", "Rate limit exceeded. Please try again later.")

  class RateLimiter {
    const rpm: int
    const enabled: bool
    const useRedis: bool
    var localLimits: map<string, Bucket>

    /**
     * `NewRateLimiter`: the store is used only when a Redis host is
     * configured and answered the ping (`pingOk`); the local map starts empty.
     */
    constructor (cfg: GatewayConfig.Config, pingOk: bool)
      ensures rpm == cfg.rateLimit.requestsPerMin && enabled == cfg.rateLimit.enabled
      ensures useRedis == (cfg.redis.host != "" && pingOk)
      ensures localLimits == map[]
    {
      rpm := cfg.rateLimit.requestsPerMin;
      enabled := cfg.rateLimit.enabled;
      useRedis := cfg.redis.host != "" && pingOk;
      localLimits := map[];
    }

    /** Every bucket is within the allowance. */
    predicate Valid()
      reads this
    {
      forall id :: id in localLimits ==> InRange(localLimits[id], rpm)
    }

    /** No bucket was refilled after `t`: the clock has reached `t`. */
    predicate RefilledBy(t: int)
      reads this
    {
      forall id :: id in localLimits ==> localLimits[id].lastRefill <= t
    }

    /**
     * `allowLocal`. The bucket is looked up, or created full and stamped with
     * the first clock reading `createdAt`; it is then refilled and charged at
     * the second reading `now`. Only this client's bucket changes.
     */
    method AllowLocal(clientID: string, createdAt: int, now: int) returns (allowed: bool, remaining: int, resetTime: int)
      requires Valid() && createdAt <= now && RefilledBy(createdAt)
      modifies this`localLimits
      ensures Valid() && RefilledBy(now)
      ensures var (b, d) := Step(Fetch(old(localLimits), clientID, rpm, createdAt), rpm, now);
              localLimits == old(localLimits)[clientID := b] && Decision(allowed, remaining, resetTime) == d
    {
      var limit: Bucket;
      if clientID in localLimits {
        limit := localLimits[clientID];
      } else {
        limit := Bucket(rpm, createdAt);
        localLimits := localLimits[clientID := limit];
      }
      var elapsed := now - limit.lastRefill;
      if elapsed >= Clock.Minute {
        limit := Bucket(rpm, now);
      } else {
        var tokensToAdd := Earned(elapsed, rpm);
        limit := limit.(tokens := limit.tokens + tokensToAdd);
        if limit.tokens > rpm {
          limit := limit.(tokens := rpm);
        }
        if tokensToAdd > 0 {
          limit := limit.(lastRefill := now);
        }
      }
      allowed := limit.tokens > 0;
      if allowed {
        limit := limit.(tokens := limit.tokens - 1);
      }
      remaining := limit.tokens;
      if remaining < 0 {
        remaining := 0;
      }
      resetTime := limit.lastRefill + Clock.Minute;
      StepInvariant(Fetch(old(localLimits), clientID, rpm, createdAt), rpm, now);
      localLimits := localLimits[clientID := limit];
    }

    /** `cleanup` at `now`: every stale bucket is deleted, every other entry kept as it is. */
    method Cleanup(now: int)
      requires Valid()
      modifies this`localLimits
      ensures Valid()
      ensures localLimits == Reap(old(localLimits), now)
    {
      ghost var original := localLimits;
      var pending := localLimits.Keys;
      while pending != {}
        invariant pending <= original.Keys
        invariant localLimits.Keys == set id | id in original && (id in pending || !Stale(original[id], now))
        invariant forall id :: id in localLimits ==> localLimits[id] == original[id]
        decreases pending
      {
        var clientID :| clientID in pending;
        if now - localLimits[clientID].lastRefill > IdleLimit {
          localLimits := localLimits - {clientID};
        }
        pending := pending - {clientID};
      }
      assert localLimits.Keys == Reap(original, now).Keys;
    }

    /** What `allow` decides: the store's window, or the local bucket; `None` for a store error. */
    function Admission(limits: map<string, Bucket>, clientID: string, createdAt: int, now: int, reply: StoreReply): Option<Decision> {
      if useRedis then
        match AllowRedis(rpm, now, reply)
        case Success(d) => Some(d)
        case Failure(_) => None
      else Some(Step(Fetch(limits, clientID, rpm, createdAt), rpm, now).1)
    }

    /**
     * The middleware. `reply` is what the store returns when it is used,
     * `createdAt` and `now` the clock readings of `allowLocal` (or `now` that
     * of `allowRedis`), `retryNow` the reading behind `Retry-After`.
     * Disabled limiting and a store error leave the request untouched; any
     * other decision sets the rate headers, and a denial then answers 429
     * and aborts. The local map changes only on the local path.
     */
    method Middleware(ctx: Gin.Context, reply: StoreReply, createdAt: int, now: int, retryNow: int)
      requires Valid() && createdAt <= now && RefilledBy(createdAt)
      modifies this`localLimits, ctx`responseHeader, ctx`status, ctx`written, ctx`bodies, ctx`aborted
      ensures Valid() && RefilledBy(now)
      ensures !enabled ==> localLimits == old(localLimits)
      ensures enabled && !useRedis ==> localLimits == old(localLimits)[GetClientID(ctx) := Step(Fetch(old(localLimits), GetClientID(ctx), rpm, createdAt), rpm, now).0]
      ensures useRedis ==> localLimits == old(localLimits)
      ensures var a := Admission(old(localLimits), GetClientID(ctx), createdAt, now, reply);
              if !enabled || a.None? then
                ctx.responseHeader == old(ctx.responseHeader) && ctx.status == old(ctx.status)
                && ctx.written == old(ctx.written) && ctx.bodies == old(ctx.bodies) && ctx.aborted == old(ctx.aborted)
              else
                && ctx.responseHeader == RateHeaders(old(ctx.responseHeader), rpm, a.value, retryNow)
                && (a.value.allowed ==> ctx.status == old(ctx.status) && ctx.written == old(ctx.written)
                                        && ctx.bodies == old(ctx.bodies) && ctx.aborted == old(ctx.aborted))
                && (!a.value.allowed ==> ctx.status == 429 && ctx.written && ctx.aborted
                                         && ctx.bodies == old(ctx.bodies) + [Gin.JsonBody(TooManyRequests)])
    {
      if !enabled {
        return;
      }
      var clientID := GetClientID(ctx);
      var allowed: bool, remaining: int, resetTime: int;
      if useRedis {
        var r := AllowRedis(rpm, now, reply);
        if r.Failure? {
          return;
        }
        allowed, remaining, resetTime := r.value.allowed, r.value.remaining, r.value.reset;
      } else {
        allowed, remaining, resetTime := AllowLocal(clientID, createdAt, now);
      }
      Apply(ctx, Decision(allowed, remaining, resetTime), retryNow);
    }

    /** The rate headers of a decision, then on a denial the 429 reply and the abort. */
    method Apply(ctx: Gin.Context, d: Decision, retryNow: int)
      modifies ctx`responseHeader, ctx`status, ctx`written, ctx`bodies, ctx`aborted
      ensures ctx.responseHeader == RateHeaders(old(ctx.responseHeader), rpm, d, retryNow)
      ensures d.allowed ==> ctx.status == old(ctx.status) && ctx.written == old(ctx.written) && ctx.bodies == old(ctx.bodies) && ctx.aborted == old(ctx.aborted)
      ensures !d.allowed ==> ctx.status == 429 && ctx.written && ctx.aborted && ctx.bodies == old(ctx.bodies) + [Gin.JsonBody(TooManyRequests)]
    {
      ctx.Header(LimitHeader, Text.Itoa(rpm));
      ctx.Header(RemainingHeader, Text.Itoa(d.remaining));
      ctx.Header(ResetHeader, Text.Itoa(Clock.UnixSeconds(d.reset)));
      if !d.allowed {
        ctx.Header(RetryAfterHeader, Text.Itoa(RetryAfter(d.reset, retryNow)));
        ctx.JSON(429, TooManyRequests);
        ctx.Abort();
      }
    }
  }
}
