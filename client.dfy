/**
 * The front end's HTTP client: a request interceptor that attaches the
 * stored admin token, as a bearer credential, to admin requests only.
 */
module ApiClient {
  import opened Wrappers
  import opened Text

  const AdminPrefix := "/api/admin"
  const AuthorizationHeader := "Authorization"

  /** The request about to be sent; the interceptor edits it in place. */
  class RequestConfig {
    var url: Option<string>
    var headers: map<string, string>

    constructor (url: Option<string>, headers: map<string, string>)
      ensures this.url == url && this.headers == headers
    {
      this.url := url;
      this.headers := headers;
    }
  }

  /** A stored token counts only when present and non-empty (JavaScript truthiness). */
  predicate Truthy(token: Option<string>)
    ensures Truthy(token) ==> token.Some? && |token.value| > 0
    ensures token == None || token == Some("") ==> !Truthy(token)
  {
    token.Some? && token.value != ""
  }

  /** The `Authorization` value a request to `url` gets, if any. */
  function BearerHeader(token: Option<string>, url: Option<string>): (h: Option<string>)
    ensures h.Some? <==> Truthy(token) && url.Some? && HasPrefix(url.value, AdminPrefix)
    ensures h.Some? ==> h.value == "Bearer " + token.value && h.value[7..] == token.value
  {
    if Truthy(token) && url.Some? && url.value != "" && HasPrefix(url.value, AdminPrefix) then
      Some("Bearer " + token.value)
    else
      None
  }

  /**
   * `storedToken` is what local storage holds under `admin_token` (`None`
   * when nothing is stored). Returns the same object; only the
   * `Authorization` header may change.
   */
  method Intercept(config: RequestConfig, storedToken: Option<string>) returns (r: RequestConfig)
    modifies config
    ensures r == config
    ensures config.url == old(config.url)
    ensures BearerHeader(storedToken, config.url).Some? ==>
              config.headers == old(config.headers)[AuthorizationHeader := BearerHeader(storedToken, config.url).value]
    ensures BearerHeader(storedToken, config.url).None? ==> config.headers == old(config.headers)
  {
    var token := storedToken;
    if Truthy(token) && config.url.Some? && config.url.value != "" && HasPrefix(config.url.value, AdminPrefix) {
      config.headers := config.headers[AuthorizationHeader := "Bearer " + token.value];
    }
    r := config;
  }

  /** Requests outside `/api/admin` never carry the token, whatever is stored. */
  lemma PublicRequestsCarryNoToken(token: Option<string>, path: string)
    requires !HasPrefix(path, "/admin")
    ensures BearerHeader(token, Some("/api" + path)) == None
  {
    var url := "/api" + path;
    if |url| >= |AdminPrefix| {
      assert url[..|AdminPrefix|][4..] == path[..6] != AdminPrefix[4..];
    }
  }

  /**
   * The test is on characters, not path segments: a request to
   * `/api/administrator` also carries the token, while `/api/admi` does not.
   */
  lemma PrefixNotSegment(token: string)
    requires token != ""
    ensures BearerHeader(Some(token), Some("/api/administrator")) == Some("Bearer " + token)
    ensures BearerHeader(Some(token), Some("/api/admi")) == None
    ensures BearerHeader(Some(""), Some("/api/admin")) == None
  {
    assert HasPrefix("/api/administrator", AdminPrefix);
  }
}
