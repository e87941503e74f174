/**
 * The dispatcher (handlers/proxy.go): the registry of reverse proxies built
 * from the configured services, the rewrite of outbound requests and
 * inbound responses, the replies the gateway writes itself (unknown
 * service, unreachable backend, timeout, no route) and the substitution of
 * route parameters into a target path.
 */
module Proxy {
  import opened Wrappers
  import Clock
  import Text
  import Http
  import Gin
  import GatewayConfig

  /** The timeout used for a service without a positive one of its own. */
  const DefaultTimeout: int := 30 * Clock.Second

  const ForwardedHost := "X-Forwarded-Host"
  const OriginHost := "X-Origin-Host"
  const RealIp := "X-Real-IP"
  const GatewayHeader := "X-Gateway"
  const GatewayName := "api-gateway"

  /**
   * The registry `initProxies` builds: a proxy for every service with a
   * base URL that is not empty and that `parse` (`url.Parse`) accepts,
   * aimed at the parsed URL.
   */
  function Registry(services: map<string, GatewayConfig.ServiceEndpoint>, parse: string -> Option<Http.Url>): (r: map<string, Http.Url>)
    ensures forall name :: name in r <==> name in services && services[name].baseUrl != "" && parse(services[name].baseUrl).Some?
    ensures forall name :: name in r ==> r[name] == parse(services[name].baseUrl).value
  {
    map name | name in services && services[name].baseUrl != "" && parse(services[name].baseUrl).Some? :: parse(services[name].baseUrl).value
  }

  /**
   * The headers `modifyRequest` writes, given the value it puts in
   * `X-Forwarded-Host`: that value, the target host as `X-Origin-Host`, the
   * remote address as `X-Real-IP` unless one is already there, and the
   * gateway's name as `X-Gateway`. Nothing else changes.
   */
  function ForwardingHeaders(h: Http.Header, forwardedHost: string, targetHost: string, remoteAddr: string): (r: Http.Header)
    ensures ForwardedHost in r && r[ForwardedHost] == [forwardedHost]
    ensures OriginHost in r && r[OriginHost] == [targetHost]
    ensures GatewayHeader in r && r[GatewayHeader] == [GatewayName]
    ensures Http.Get(h, RealIp) == "" ==> RealIp in r && r[RealIp] == [remoteAddr]
    ensures Http.Get(r, ForwardedHost) == forwardedHost
    ensures Http.Get(r, OriginHost) == targetHost
    ensures Http.Get(h, RealIp) == "" ==> Http.Get(r, RealIp) == remoteAddr
    ensures Http.Get(h, RealIp) != "" ==> RealIp in r && r[RealIp] == h[RealIp]
    ensures Http.Get(r, GatewayHeader) == GatewayName
    ensures r.Keys == h.Keys + {ForwardedHost, OriginHost, GatewayHeader} + (if Http.Get(h, RealIp) == "" then {RealIp} else {})
    ensures forall k :: k in h && k !in {ForwardedHost, OriginHost, RealIp, GatewayHeader} ==> r[k] == h[k]
  {
    var h1 := Http.Set(h, ForwardedHost, forwardedHost);
    var h2 := Http.Set(h1, OriginHost, targetHost);
    var h3 := if Http.Get(h2, RealIp) == "" then Http.Set(h2, RealIp, remoteAddr) else h2;
    Http.Set(h3, GatewayHeader, GatewayName)
  }

  /**
   * `modifyRequest` as written: the host is overwritten with the target's
   * before `X-Forwarded-Host` is read from it, so that header carries the
   * target host and the client's host is lost.
   */
  method ModifyRequestAsWritten(req: Http.Request, target: Http.Url)
    modifies req
    ensures req.host == target.host
    ensures req.url == old(req.url).(host := target.host, scheme := target.scheme)
    ensures req.header == ForwardingHeaders(old(req.header), target.host, target.host, req.remoteAddr)
  {
    req.host := target.host;
    req.url := req.url.(host := target.host);
    req.url := req.url.(scheme := target.scheme);
    req.header := Http.Set(req.header, ForwardedHost, req.host);
    req.header := Http.Set(req.header, OriginHost, target.host);
    if Http.Get(req.header, RealIp) == "" {
      req.header := Http.Set(req.header, RealIp, req.remoteAddr);
    }
    req.header := Http.Set(req.header, GatewayHeader, GatewayName);
  }

  /**
   * As written, `X-Forwarded-Host` always repeats `X-Origin-Host`; a client
   * that asked for `gateway.example.com` is reported to a backend at
   * `users:8081` as having asked for `users:8081`.
   */
  lemma ForwardedHostRepeatsTarget(h: Http.Header, clientHost: string, target: Http.Url, remoteAddr: string)
    ensures var r := ForwardingHeaders(h, target.host, target.host, remoteAddr);
            Http.Get(r, ForwardedHost) == Http.Get(r, OriginHost) == target.host
    ensures clientHost != target.host ==> Http.Get(ForwardingHeaders(h, target.host, target.host, remoteAddr), ForwardedHost) != clientHost
  {
  }

  /** The discrepancy on a concrete request. */
  lemma ForwardedHostExample()
    ensures Http.Get(ForwardingHeaders(map[], "users:8081", "users:8081", "10.0.0.7:5123"), ForwardedHost) != "gateway.example.com"
  {
    assert Http.Get(ForwardingHeaders(map[], "users:8081", "users:8081", "10.0.0.7:5123"), ForwardedHost) == "users:8081";
  }

  /**
   * `modifyRequest` as intended: the request is aimed at the target, and
   * `X-Forwarded-Host` carries the host the client asked for.
   */
  method ModifyRequest(req: Http.Request, target: Http.Url)
    modifies req
    ensures req.host == target.host
    ensures req.url == old(req.url).(host := target.host, scheme := target.scheme)
    ensures req.header == ForwardingHeaders(old(req.header), old(req.host), target.host, req.remoteAddr)
    ensures Http.Get(req.header, ForwardedHost) == old(req.host)
  {
    var clientHost := req.host;
    req.host := target.host;
    req.url := req.url.(host := target.host);
    req.url := req.url.(scheme := target.scheme);
    req.header := Http.Set(req.header, ForwardedHost, clientHost);
    req.header := Http.Set(req.header, OriginHost, target.host);
    if Http.Get(req.header, RealIp) == "" {
      req.header := Http.Set(req.header, RealIp, req.remoteAddr);
    }
    req.header := Http.Set(req.header, GatewayHeader, GatewayName);
  }

  /** `modifyResponse`: the response is stamped with the gateway's name and nothing fails. */
  method ModifyResponse(resp: Http.Response) returns (err: Option<string>)
    modifies resp
    ensures resp.header == Http.Set(old(resp.header), GatewayHeader, GatewayName)
    ensures err == None
  {
    resp.header := Http.Set(resp.header, GatewayHeader, GatewayName);
    err := None;
  }

  const BadGatewayPrefix := "{\"error\":\"Bad Gateway\",\"message\":\"Failed to reach backend service: "
  const BadGatewaySuffix := "\"}"

  /** The raw body of a 502 reply for a transport error with text `err`. */
  function BadGatewayBody(err: string): (b: string)
    ensures |b| == |BadGatewayPrefix| + |err| + |BadGatewaySuffix|
    ensures b[..|BadGatewayPrefix|] == BadGatewayPrefix
    ensures b[|BadGatewayPrefix|..|b| - |BadGatewaySuffix|] == err
    ensures b[|b| - |BadGatewaySuffix|..] == BadGatewaySuffix
  {
    BadGatewayPrefix + err + BadGatewaySuffix
  }

  /** Distinct transport errors give distinct 502 bodies: the error text is never lost. */
  lemma BadGatewayBodyInjective(e1: string, e2: string)
    requires BadGatewayBody(e1) == BadGatewayBody(e2)
    ensures e1 == e2
  {
    var b := BadGatewayBody(e1);
    assert e1 == b[|BadGatewayPrefix|..|b| - |BadGatewaySuffix|];
  }

  /** `errorHandler`: a JSON content type, status 502 and the body naming the error. */
  method ErrorHandler(ctx: Gin.Context, err: string)
    modifies ctx`responseHeader, ctx`status, ctx`written, ctx`bodies
    ensures ctx.responseHeader == Http.Set(old(ctx.responseHeader), "Content-Type", "application/json")
    ensures ctx.status == 502 && ctx.written
    ensures ctx.bodies == old(ctx.bodies) + [Gin.RawBody(BadGatewayBody(err))]
  {
    ctx.responseHeader := Http.Set(ctx.responseHeader, "Content-Type", "application/json");
    ctx.status := 502;
    ctx.written := true;
    ctx.bodies := ctx.bodies + [Gin.RawBody(BadGatewayBody(err))];
  }

  /**
   * How the wait for the backend ended: the proxy finished, or the timer
   * fired first, at which point the response had or had not been written.
   */
  datatype Race = Completed | TimedOut(written: bool)

  const ServiceNotFound := Gin.ErrorJson("Internal Server Error", "Service configuration not found")
  const GatewayTimeout := Gin.ErrorJson("Gateway Timeout", "Backend service did not respond in time")

  /**
   * The reply a proxying handler writes itself: 500 for a service without a
   * proxy, 504 for a timeout before anything was written, none otherwise
   * (the backend's or the error handler's reply stands).
   */
  function Settle(known: bool, race: Race): (r: Option<(int, Gin.Json)>)
    ensures !known ==> r == Some((500, ServiceNotFound))
    ensures known && race.TimedOut? && !race.written ==> r == Some((504, GatewayTimeout))
    ensures known && (race.Completed? || race.written) ==> r == None
  {
    if !known then Some((500, ServiceNotFound))
    else if race.TimedOut? && !race.written then Some((504, GatewayTimeout))
    else None
  }

  /** A timeout never overwrites a reply already under way, and a 504 always means a timeout. */
  lemma SettleRespectsWrites(known: bool, race: Race)
    ensures race.TimedOut? && race.written ==> Settle(known, race) != Some((504, GatewayTimeout)) || !known
    ensures Settle(known, race) == Some((504, GatewayTimeout)) ==> known && race == TimedOut(false)
  {
  }

  /** The path placeholder of a route parameter. */
  function Placeholder(key: string): (p: string)
    ensures |p| == |key| + 1 && p[0] == ':'
  {
    ":" + key
  }

  /**
   * The target path once every parameter, in order, has replaced all
   * occurrences of its placeholder in the path produced so far.
   */
  function Substitute(path: string, params: seq<Gin.Param>): string
    decreases |params|
  {
    if |params| == 0 then path
    else Substitute(Text.ReplaceAll(path, Placeholder(params[0].key), params[0].value), params[1..])
  }

  /** Without parameters the template comes back unchanged. */
  lemma SubstituteNoParams(path: string)
    ensures Substitute(path, []) == path
  {
  }

  /** A template holding no placeholder of any parameter comes back unchanged. */
  lemma {:induction false} SubstituteAbsent(path: string, params: seq<Gin.Param>)
    requires forall i :: 0 <= i < |params| ==> !Text.Contains(path, Placeholder(params[i].key))
    ensures Substitute(path, params) == path
    decreases |params|
  {
    if |params| > 0 {
      Text.ReplaceAllAbsent(path, Placeholder(params[0].key), params[0].value);
      assert forall i :: 0 <= i < |params[1..]| ==> params[1..][i] == params[i + 1];
      SubstituteAbsent(path, params[1..]);
    }
  }

  /**
   * A route whose only placeholder ends the template gets the parameter's
   * value there, as `/tasks/:id` becomes `/tasks/42`.
   */
  lemma SubstituteTrailing(prefix: string, key: string, value: string)
    requires ':' !in prefix
    ensures Substitute(prefix + Placeholder(key), [Gin.Param(key, value)]) == prefix + value
  {
    Text.ReplaceAllTrailing(prefix, Placeholder(key), value);
    assert [Gin.Param(key, value)][1..] == [];
  }

  lemma SubstituteExample()
    ensures Substitute("/tasks/:id", [Gin.Param("id", "42")]) == "/tasks/42"
  {
    assert ':' !in "/tasks/";
    assert "/tasks/:id" == "/tasks/" + Placeholder("id");
    SubstituteTrailing("/tasks/", "id", "42");
  }

  /** `replacePathParams`: each parameter in turn replaces every occurrence of its placeholder. */
  method ReplacePathParams(template: string, params: seq<Gin.Param>) returns (path: string)
    ensures path == Substitute(template, params)
  {
    path := template;
    for i := 0 to |params|
      invariant Substitute(path, params[i..]) == Substitute(template, params)
    {
      assert params[i..][1..] == params[i + 1..];
      var placeholder := Placeholder(params[i].key);
      path := Text.ReplaceAll(path, placeholder, params[i].value);
    }
  }

  class ProxyHandler {
    const services: map<string, GatewayConfig.ServiceEndpoint>
    /** The target of each service's reverse proxy. */
    var proxies: map<string, Http.Url>

    /** `NewProxyHandler`: an empty registry filled by `initProxies`. */
    constructor (cfg: GatewayConfig.Config, parse: string -> Option<Http.Url>)
      ensures services == cfg.services.Entries()
      ensures proxies == Registry(services, parse)
    {
      services := cfg.services.Entries();
      proxies := map[];
      new;
      InitProxies(parse);
    }

    /** `initProxies`: a proxy is registered for every service whose base URL is set and parses. */
    method InitProxies(parse: string -> Option<Http.Url>)
      modifies this`proxies
      ensures proxies == old(proxies) + Registry(services, parse)
    {
      var pending := services.Keys;
      ghost var done: set<string> := {};
      while pending != {}
        invariant pending !! done && pending + done == services.Keys
        invariant proxies == old(proxies) + map name | name in done && services[name].baseUrl != "" && parse(services[name].baseUrl).Some? :: parse(services[name].baseUrl).value
        decreases pending
      {
        var serviceName :| serviceName in pending;
        pending := pending - {serviceName};
        done := done + {serviceName};
        var endpoint := services[serviceName];
        if endpoint.baseUrl == "" {
          continue;
        }
        var target := parse(endpoint.baseUrl);
        if target.None? {
          continue;
        }
        proxies := proxies[serviceName := target.value];
      }
    }

    /**
     * `getServiceTimeout`: the service's own timeout when it has a positive
     * one, the 30-second default otherwise; always a positive duration.
     */
    function GetServiceTimeout(serviceName: string): (t: int)
      ensures serviceName in services && services[serviceName].timeout > 0 ==> t == services[serviceName].timeout
      ensures !(serviceName in services && services[serviceName].timeout > 0) ==> t == DefaultTimeout
      ensures t > 0
    {
      if serviceName in services && services[serviceName].timeout > 0 then services[serviceName].timeout else DefaultTimeout
    }

    /**
     * `ProxyToService`. `race` tells how the wait for the backend ends under
     * a given timeout. An unknown service gets the 500 reply and nothing is
     * forwarded; otherwise the request (under the wildcard `path` parameter
     * when one is set) goes to the service's target, and a timeout before
     * anything was written gets the 504 reply.
     */
    method ProxyToService(ctx: Gin.Context, serviceName: string, race: int -> Race) returns (forwardedTo: Option<Http.Url>)
      modifies ctx`path, ctx`status, ctx`written, ctx`bodies
      ensures forwardedTo.Some? <==> serviceName in proxies
      ensures forwardedTo.Some? ==> forwardedTo.value == proxies[serviceName]
      ensures serviceName in proxies ==> ctx.path == (if ctx.ParamValue("path") != "" then ctx.ParamValue("path") else old(ctx.path))
      ensures serviceName !in proxies ==> ctx.path == old(ctx.path)
      ensures Reply(ctx, Settle(serviceName in proxies, race(GetServiceTimeout(serviceName))))
    {
      if serviceName !in proxies {
        ctx.JSON(500, ServiceNotFound);
        return None;
      }
      var path := ctx.ParamValue("path");
      if path != "" {
        ctx.path := path;
      }
      var timeout := GetServiceTimeout(serviceName);
      forwardedTo := Some(proxies[serviceName]);
      match race(timeout)
      case Completed =>
      case TimedOut(written) =>
        if !written {
          ctx.JSON(504, GatewayTimeout);
        }
    }

    /**
     * `ProxyToServiceWithPath`: as `ProxyToService`, except that the request
     * goes out under `targetPath` with the route parameters substituted.
     */
    method ProxyToServiceWithPath(ctx: Gin.Context, serviceName: string, targetPath: string, race: int -> Race) returns (forwardedTo: Option<Http.Url>)
      modifies ctx`path, ctx`status, ctx`written, ctx`bodies
      ensures forwardedTo.Some? <==> serviceName in proxies
      ensures forwardedTo.Some? ==> forwardedTo.value == proxies[serviceName]
      ensures serviceName in proxies ==> ctx.path == Substitute(targetPath, ctx.params)
      ensures serviceName !in proxies ==> ctx.path == old(ctx.path)
      ensures Reply(ctx, Settle(serviceName in proxies, race(GetServiceTimeout(serviceName))))
    {
      if serviceName !in proxies {
        ctx.JSON(500, ServiceNotFound);
        return None;
      }
      var finalPath := ReplacePathParams(targetPath, ctx.params);
      ctx.path := finalPath;
      var timeout := GetServiceTimeout(serviceName);
      forwardedTo := Some(proxies[serviceName]);
      match race(timeout)
      case Completed =>
      case TimedOut(written) =>
        if !written {
          ctx.JSON(504, GatewayTimeout);
        }
    }
  }

  /** The handler wrote `reply` if there is one, and otherwise left the response alone. */
  twostate predicate Reply(ctx: Gin.Context, reply: Option<(int, Gin.Json)>)
    reads ctx
  {
    match reply
    case Some((code, body)) => ctx.status == code && ctx.written && ctx.bodies == old(ctx.bodies) + [Gin.JsonBody(body)]
    case None => ctx.status == old(ctx.status) && ctx.written == old(ctx.written) && ctx.bodies == old(ctx.bodies)
  }

  /** `NotFound`: 404 with the path that matched no route. */
  method NotFound(ctx: Gin.Context)
    modifies ctx`status, ctx`written, ctx`bodies
    ensures ctx.status == 404 && ctx.written
    ensures ctx.bodies == old(ctx.bodies) + [Gin.JsonBody(Gin.ErrorPathJson("Not Found", "The requested endpoint does not exist", ctx.path))]
  {
    ctx.JSON(404, Gin.ErrorPathJson("Not Found", "The requested endpoint does not exist", ctx.path));
  }

  /** The message of a 405 reply, naming the method. */
  function MethodMessage(httpMethod: string): (m: string)
    ensures m == "Method " + httpMethod + " is not allowed for this endpoint"
    ensures m[7..7 + |httpMethod|] == httpMethod
  {
    "Method " + httpMethod + " is not allowed for this endpoint"
  }

  /** `MethodNotAllowed`: 405 naming the method and the path. */
  method MethodNotAllowed(ctx: Gin.Context)
    modifies ctx`status, ctx`written, ctx`bodies
    ensures ctx.status == 405 && ctx.written
    ensures ctx.bodies == old(ctx.bodies) + [Gin.JsonBody(Gin.ErrorPathJson("Method Not Allowed", MethodMessage(ctx.httpMethod), ctx.path))]
  {
    ctx.JSON(405, Gin.ErrorPathJson("Method Not Allowed", MethodMessage(ctx.httpMethod), ctx.path));
  }
}
