/**
 * Shaping the CORS settings from the configuration (middleware/cors.go).
 * The CORS negotiation itself belongs to the gin-contrib/cors library.
 */
module Cors {
  import Clock
  import GatewayConfig

  /** The settings handed to `cors.New` (the fields the gateway sets). */
  datatype CorsSettings = CorsSettings(
    allowAllOrigins: bool,
    allowOrigins: seq<string>,
    allowMethods: seq<string>,
    allowHeaders: seq<string>,
    exposeHeaders: seq<string>,
    allowCredentials: bool,
    maxAge: int)

  /** `contains`: a scan with an early return on the first equal element. */
  method Contains(slice: seq<string>, item: string) returns (found: bool)
    ensures found <==> item in slice
  {
    for i := 0 to |slice|
      invariant item !in slice[..i]
    {
      if slice[i] == item {
        return true;
      }
    }
    return false;
  }

  /** The wildcard origin. */
  const Wildcard := "*"

  /**
   * `CORS`'s configuration: every list and flag is copied, the max age
   * becomes that many seconds; when "*" is among the origins, all origins
   * are allowed and the origin list is dropped (Go's `nil`, here empty).
   */
  method Settings(cfg: GatewayConfig.CorsConfig) returns (r: CorsSettings)
    ensures r.allowAllOrigins <==> Wildcard in cfg.allowOrigins
    ensures r.allowOrigins == if Wildcard in cfg.allowOrigins then [] else cfg.allowOrigins
    ensures r.allowMethods == cfg.allowMethods && r.allowHeaders == cfg.allowHeaders
    ensures r.exposeHeaders == cfg.exposeHeaders && r.allowCredentials == cfg.allowCredentials
    ensures r.maxAge == cfg.maxAge * Clock.Second
  {
    r := CorsSettings(false, cfg.allowOrigins, cfg.allowMethods, cfg.allowHeaders,
                      cfg.exposeHeaders, cfg.allowCredentials, cfg.maxAge * Clock.Second);
    var any := Contains(cfg.allowOrigins, Wildcard);
    if any {
      r := r.(allowAllOrigins := true, allowOrigins := []);
    }
  }
}
