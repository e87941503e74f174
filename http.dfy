/**
 * The slice of Go's net/http the gateway touches: header maps with their
 * `Get`/`Set` rules, URLs, and the outbound request and backend response
 * objects the reverse proxy hands to the gateway's callbacks.
 */
module Http {

  /** `http.Header`: each name maps to its list of values. */
  type Header = map<string, seq<string>>

  /** `Header.Get`: the first value under `key`, or "" when there is none. */
  function Get(h: Header, key: string): (v: string)
    ensures key !in h ==> v == ""
    ensures key in h && |h[key]| == 0 ==> v == ""
    ensures key in h && |h[key]| > 0 ==> v == h[key][0]
  {
    if key in h && |h[key]| > 0 then h[key][0] else ""
  }

  /** `Header.Set`: `key` now holds exactly `[value]`; every other name is untouched. */
  function Set(h: Header, key: string, value: string): (r: Header)
    ensures key in r && r[key] == [value] && Get(r, key) == value
    ensures r.Keys == h.Keys + {key}
    ensures forall k :: k in h && k != key ==> r[k] == h[k]
  {
    h[key := [value]]
  }

  /** The parts of a `url.URL` the gateway reads or writes. */
  datatype Url = Url(scheme: string, host: string, path: string)

  /** An `http.Request` as the reverse proxy's director sees it. */
  class Request {
    var host: string
    var url: Url
    var header: Header
    const remoteAddr: string
    const httpMethod: string

    constructor (host: string, url: Url, header: Header, remoteAddr: string, httpMethod: string)
      ensures this.host == host && this.url == url && this.header == header
      ensures this.remoteAddr == remoteAddr && this.httpMethod == httpMethod
    {
      this.host := host;
      this.url := url;
      this.header := header;
      this.remoteAddr := remoteAddr;
      this.httpMethod := httpMethod;
    }
  }

  /** An `http.Response` from a backend, before it is copied to the caller. */
  class Response {
    var header: Header
    const statusCode: int

    constructor (statusCode: int, header: Header)
      ensures this.statusCode == statusCode && this.header == header
    {
      this.statusCode := statusCode;
      this.header := header;
    }
  }
}
