/**
 * The parts of the HTTP client the SDK configures: requests, proxy settings,
 * credential scopes, and a description of what one execution puts on the wire.
 */
module Http {
  import opened Types

  datatype Verb = Get | Post

  /** `RequestConfig` with a proxy `HttpHost(host, port, scheme)`. */
  datatype ProxyConfig = ProxyConfig(host: string, port: int, scheme: string)

  /** `AuthScope`: `AuthScope.ANY`, or a host with port -1 (any port). */
  datatype AuthScope = AnyScope | HostScope(host: string, port: int)

  /** `UsernamePasswordCredentials` for basic authentication. */
  datatype Credentials = Credentials(username: string, password: string)

  /** Everything that determines one execution of a request: the request itself and the client it runs on. */
  datatype Wire = Wire(
    verb: Verb,
    url: string,
    headers: map<string, string>,
    body: Option<string>,
    config: Option<ProxyConfig>,
    scope: AuthScope,
    credentials: Credentials)

  /** An `HttpGet` or `HttpPost`: the URI is fixed, headers, entity and config are set afterwards. */
  class HttpRequest {
    const verb: Verb
    const url: string
    var headers: map<string, string>
    var body: Option<string>
    var config: Option<ProxyConfig>

    constructor (verb: Verb, url: string)
      ensures this.verb == verb && this.url == url
      ensures headers == map[] && body == None && config == None
    {
      this.verb := verb;
      this.url := url;
      headers := map[];
      body := None;
      config := None;
    }

    /** `setEntity`: the request body. */
    method SetBody(content: string)
      modifies this`body
      ensures body == Some(content)
    {
      body := Some(content);
    }

    /** `setConfig`: the request configuration, here only its proxy. */
    method SetConfig(proxy: Option<ProxyConfig>)
      modifies this`config
      ensures config == proxy
    {
      config := proxy;
    }
  }
}
