/**
 * The gin request context as the gateway's middlewares use it: the inbound
 * request's fixed parts, the per-request key/value store, the response
 * headers, status and written bodies, and the abort flag.
 */
module Gin {
  import opened Wrappers
  import Http
  import Jwt

  /** The values middlewares store under context keys. */
  datatype Value =
    | ClaimsRef(claims: Jwt.Claims)  // a `*Claims`
    | Str(s: string)                 // a `string`
    | Other                          // anything else

  /** A matched route parameter (`gin.Param`). */
  datatype Param = Param(key: string, value: string)

  /** The JSON objects the gateway writes (`gin.H` literals). */
  datatype Json =
    | ErrorJson(error: string, message: string)
    | ErrorPathJson(error: string, message: string, path: string)

  /** A written response body: a JSON object from `c.JSON`, or raw text. */
  datatype Body = JsonBody(json: Json) | RawBody(text: string)

  /** The context key under which the authentication middlewares store claims. */
  const UserKey := "user"

  class Context {
    const requestHeader: Http.Header
    const clientIp: string
    const httpMethod: string
    const rawQuery: string
    const userAgent: string
    const params: seq<Param>
    const errors: seq<string>
    var path: string
    var keys: map<string, Value>
    var responseHeader: Http.Header
    var status: int
    var written: bool
    var bodies: seq<Body>
    var aborted: bool
    /** The claims attached to the request's `context.Context`, if any. */
    var requestUser: Option<Jwt.Claims>

    constructor (requestHeader: Http.Header, clientIp: string, httpMethod: string, path: string,
                 rawQuery: string, userAgent: string, params: seq<Param>, errors: seq<string>)
      ensures this.requestHeader == requestHeader && this.clientIp == clientIp
      ensures this.httpMethod == httpMethod && this.path == path && this.rawQuery == rawQuery
      ensures this.userAgent == userAgent && this.params == params && this.errors == errors
      ensures keys == map[] && responseHeader == map[] && status == 200 && !written
      ensures bodies == [] && !aborted && requestUser == None
    {
      this.requestHeader := requestHeader;
      this.clientIp := clientIp;
      this.httpMethod := httpMethod;
      this.path := path;
      this.rawQuery := rawQuery;
      this.userAgent := userAgent;
      this.params := params;
      this.errors := errors;
      keys := map[];
      responseHeader := map[];
      status := 200;
      written := false;
      bodies := [];
      aborted := false;
      requestUser := None;
    }

    /** `c.GetHeader(key)`: the first value of the request header, or "". */
    function GetHeader(key: string): string {
      Http.Get(requestHeader, key)
    }

    /** `c.Param(key)`: the value of the first route parameter named `key`, or "". */
    function ParamValue(key: string): string {
      FirstParam(params, key)
    }

    /** `c.Header(key, value)`: sets a response header, or deletes it when `value` is "". */
    method Header(key: string, value: string)
      modifies this`responseHeader
      ensures responseHeader == if value == "" then old(responseHeader) - {key}
                                else Http.Set(old(responseHeader), key, value)
    {
      if value == "" {
        responseHeader := responseHeader - {key};
      } else {
        responseHeader := Http.Set(responseHeader, key, value);
      }
    }

    /** `c.JSON(code, obj)`: the status and the JSON body are written. */
    method JSON(code: int, obj: Json)
      modifies this`status, this`written, this`bodies
      ensures status == code && written && bodies == old(bodies) + [JsonBody(obj)]
    {
      status := code;
      written := true;
      bodies := bodies + [JsonBody(obj)];
    }

    /** `c.Abort()`: no later handler of the chain runs. */
    method Abort()
      modifies this`aborted
      ensures aborted
    {
      aborted := true;
    }

    /** `c.Set(key, value)`. */
    method Set(key: string, value: Value)
      modifies this`keys
      ensures keys == old(keys)[key := value]
    {
      keys := keys[key := value];
    }
  }

  /** The value of the first parameter named `key`, or "" when none is. */
  function FirstParam(params: seq<Param>, key: string): (v: string)
    ensures (forall i :: 0 <= i < |params| ==> params[i].key != key) ==> v == ""
    ensures forall i :: 0 <= i < |params| && params[i].key == key && (forall j :: 0 <= j < i ==> params[j].key != key) ==> v == params[i].value
  {
    if |params| == 0 then ""
    else if params[0].key == key then params[0].value
    else
      var v := FirstParam(params[1..], key);
      assert forall i :: 1 <= i < |params| ==> params[1..][i - 1] == params[i];
      v
  }
}
