/**
 * The request interceptor of the shared HTTP client: before every request
 * it attaches the stored token as a bearer credential.
 */
module Api {
  import opened Common
  import opened LocalStorage

  type Headers = map<string, string>

  const AuthorizationHeader := "Authorization"

  /** The part of a request configuration the interceptor touches; `headers` is `None` when the object has none. */
  class RequestConfig {
    var url: string
    var verb: string
    var headers: Option<Headers>

    constructor (url: string, verb: string, headers: Option<Headers>)
      ensures this.url == url && this.verb == verb && this.headers == headers
    {
      this.url := url;
      this.verb := verb;
      this.headers := headers;
    }
  }

  /**
   * The headers after interception. With a truthy stored token `t` they
   * exist, hold `Authorization: Bearer t` and keep every other header
   * they had; without one they are what they were.
   */
  function WithBearer(h: Option<Headers>, s: Store): (r: Option<Headers>)
    ensures !Truthy(GetItem(s, "token")) ==> r == h
    ensures Truthy(GetItem(s, "token")) ==>
              r.Some? && AuthorizationHeader in r.value && r.value[AuthorizationHeader] == "Bearer " + s["token"]
    ensures Truthy(GetItem(s, "token")) ==>
              r.Some? && r.value.Keys == (if h.Some? then h.value.Keys else {}) + {AuthorizationHeader}
    ensures Truthy(GetItem(s, "token")) && h.Some? ==>
              r.Some? && forall k :: k in h.value && k != AuthorizationHeader ==> r.value[k] == h.value[k]
  {
    var t := GetItem(s, "token");
    if Truthy(t) then
      var base := if h.Some? then h.value else map[];
      Some(base[AuthorizationHeader := "Bearer " + t.value])
    else
      h
  }

  /** The interceptor callback: updates the configuration's headers in place and returns the same object. */
  method Intercept(config: RequestConfig, s: Store) returns (r: RequestConfig)
    modifies config`headers
    ensures r == config
    ensures config.headers == WithBearer(old(config.headers), s)
  {
    var t := GetItem(s, "token");
    if Truthy(t) {
      if config.headers.None? {
        config.headers := Some(map[]);
      }
      config.headers := Some(config.headers.value[AuthorizationHeader := "Bearer " + t.value]);
    }
    r := config;
  }
}
