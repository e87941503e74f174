/**
 * The access-log record of each request (middleware/logger.go): the level and
 * message chosen from the final status, and the list of fields. Writing the
 * record is the zap logger's business.
 */
module AccessLog {
  import opened Wrappers
  import Jwt
  import Gin
  import Auth
  import RequestId

  datatype Level = Info | Warn | Error

  /** The severity order of levels. */
  function Severity(l: Level): nat {
    match l
    case Info => 0
    case Warn => 1
    case Error => 2
  }

  /**
   * The `switch` on the status: 5xx and above is an error, 4xx a warning,
   * 3xx an informational redirection, anything lower a completed request.
   */
  function Classify(status: int): (r: (Level, string))
    ensures status >= 500 ==> r == (Error, "Server error")
    ensures 400 <= status < 500 ==> r == (Warn, "Client error")
    ensures 300 <= status < 400 ==> r == (Info, "Redirection")
    ensures status < 300 ==> r == (Info, "Request completed")
  {
    if status >= 500 then (Error, "Server error")
    else if status >= 400 then (Warn, "Client error")
    else if status >= 300 then (Info, "Redirection")
    else (Info, "Request completed")
  }

  /** A higher status is never logged at a lower severity. */
  lemma ClassifyMonotone(s: int, t: int)
    requires s <= t
    ensures Severity(Classify(s).0) <= Severity(Classify(t).0)
  {
  }

  /** A typed log field (`zap.Field`). */
  datatype Field =
    | IntField(key: string, n: int)
    | StringField(key: string, s: string)
    | DurationField(key: string, d: int)
  {
    function Key(): string {
      match this
      case IntField(k, _) => k
      case StringField(k, _) => k
      case DurationField(k, _) => k
    }
  }

  predicate HasKey(fields: seq<Field>, key: string) {
    exists i :: 0 <= i < |fields| && fields[i].Key() == key
  }

  /** The seven fields every record starts with, in order. */
  function BaseFields(status: int, httpMethod: string, path: string, query: string, ip: string, latency: int, userAgent: string): seq<Field> {
    [IntField("status", status), StringField("method", httpMethod), StringField("path", path),
     StringField("query", query), StringField("ip", ip), DurationField("latency", latency),
     StringField("user_agent", userAgent)]
  }

  /**
   * `c.GetString("request_id")`: the stored value when it is a string, "" otherwise.
   */
  function StoredRequestId(keys: map<string, Gin.Value>): (id: string)
    ensures RequestId.RequestIdKey in keys && keys[RequestId.RequestIdKey].Str? ==> id == keys[RequestId.RequestIdKey].s
    ensures !(RequestId.RequestIdKey in keys && keys[RequestId.RequestIdKey].Str?) ==> id == ""
  {
    if RequestId.RequestIdKey in keys && keys[RequestId.RequestIdKey].Str? then keys[RequestId.RequestIdKey].s else ""
  }

  /**
   * The record `Logger` writes once the rest of the chain has run. `path` and
   * `query` are the request's as they were before the chain ran, `latency`
   * is the measured duration and `errorsText` the rendering of the context's
   * error list. The request id field follows the base fields only when an id
   * is stored, the user fields only when claims are stored, and the error
   * field only when errors were recorded.
   */
  method Logger(ctx: Gin.Context, path: string, query: string, latency: int, errorsText: string)
    returns (level: Level, message: string, fields: seq<Field>)
    ensures (level, message) == Classify(ctx.status)
    ensures |fields| >= 7
    ensures fields[..7] == BaseFields(ctx.status, ctx.httpMethod, path, query, ctx.clientIp, latency, ctx.userAgent)
    ensures var rid := StoredRequestId(ctx.keys);
            var user := Auth.GetUserFromContext(ctx.keys);
            fields[7..] == (if rid != "" then [StringField("request_id", rid)] else [])
                         + (if user.Some? then [StringField("user_id", user.value.userId), StringField("user_email", user.value.email)] else [])
                         + (if |ctx.errors| > 0 then [StringField("error", errorsText)] else [])
  {
    var requestId := StoredRequestId(ctx.keys);
    fields := BaseFields(ctx.status, ctx.httpMethod, path, query, ctx.clientIp, latency, ctx.userAgent);
    if requestId != "" {
      fields := fields + [StringField("request_id", requestId)];
    }
    var user := Auth.GetUserFromContext(ctx.keys);
    if user.Some? {
      fields := fields + [StringField("user_id", user.value.userId), StringField("user_email", user.value.email)];
    }
    if |ctx.errors| > 0 {
      fields := fields + [StringField("error", errorsText)];
    }
    var statusCode := ctx.status;
    if statusCode >= 500 {
      level, message := Error, "Server error";
    } else if statusCode >= 400 {
      level, message := Warn, "Client error";
    } else if statusCode >= 300 {
      level, message := Info, "Redirection";
    } else {
      level, message := Info, "Request completed";
    }
  }

  /**
   * Each optional field is present exactly when its condition holds, since
   * no base field shares its key.
   */
  lemma OptionalFieldsIff(base: seq<Field>, rid: string, user: Option<Jwt.Claims>, hasErrors: bool, errorsText: string)
    requires forall i :: 0 <= i < |base| ==> base[i].Key() !in {"request_id", "user_id", "user_email", "error"}
    ensures var fields := base
                         + (if rid != "" then [StringField("request_id", rid)] else [])
                         + (if user.Some? then [StringField("user_id", user.value.userId), StringField("user_email", user.value.email)] else [])
                         + (if hasErrors then [StringField("error", errorsText)] else []);
            && (HasKey(fields, "request_id") <==> rid != "")
            && (HasKey(fields, "user_id") <==> user.Some?)
            && (HasKey(fields, "user_email") <==> user.Some?)
            && (HasKey(fields, "error") <==> hasErrors)
  {
    var a := if rid != "" then [StringField("request_id", rid)] else [];
    var b := if user.Some? then [StringField("user_id", user.value.userId), StringField("user_email", user.value.email)] else [];
    var c := if hasErrors then [StringField("error", errorsText)] else [];
    var fields := base + a + b + c;
    if rid != "" { assert fields[|base|].Key() == "request_id"; }
    if user.Some? {
      assert fields[|base| + |a|].Key() == "user_id";
      assert fields[|base| + |a| + 1].Key() == "user_email";
    }
    if hasErrors { assert fields[|base| + |a| + |b|].Key() == "error"; }
  }

  /** The base fields carry none of the optional keys. */
  lemma BaseFieldsKeys(status: int, httpMethod: string, path: string, query: string, ip: string, latency: int, userAgent: string)
    ensures var base := BaseFields(status, httpMethod, path, query, ip, latency, userAgent);
      forall i :: 0 <= i < |base| ==> base[i].Key() !in {"request_id", "user_id", "user_email", "error"}
  {
  }
}
