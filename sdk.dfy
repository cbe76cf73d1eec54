/**
 * The client object: its configuration fields, the constructor's validation,
 * the setters, and the request pipeline (URL, headers, credentials, proxy,
 * execution with the rate-limit retry).
 */
module Sdk {
  import opened Types
  import opened Http
  import Url
  import Headers
  import Retry

  /** `WhispirResponse`; only its status code is modelled. */
  datatype WhispirResponse = WhispirResponse(statusCode: int)

  /** The network: what the n-th execution of a request yields, given everything that goes on the wire. */
  type Transport = (Wire, nat) -> Retry.Exchange

  /** The executions of one fixed request, as the retry logic sees them. */
  function Attempts(transport: Transport, wire: Wire): nat -> Retry.Exchange
  {
    (n: nat) => transport(wire, n)
  }

  /** Proxy scheme chosen by `setProxy`. */
  function ProxyScheme(httpsEnabled: bool): (scheme: string)
    ensures scheme == "https" <==> httpsEnabled
    ensures scheme == "http" <==> !httpsEnabled
  {
    if httpsEnabled then "https" else "http"
  }

  /** The headers `setHeaders` leaves on a fresh request for a known media type. */
  function MediaHeaders(header: string): map<string, string>
  {
    map[Headers.ContentType := header][Headers.Accept := header]
  }

  class WhispirSdk {
    var apikey: string
    var username: string
    var password: string
    /** Debug host, or None while it has never been set (Java null). */
    var debugHost: Option<string>
    var debug: bool
    var proxy: Option<ProxyConfig>
    var proxyEnabled: bool

    /** Debug mode always has a non-empty host to go to, and an enabled proxy is configured. */
    ghost predicate Valid()
      reads this
    {
      (debug ==> debugHost.Some? && debugHost.value != "") &&
      (proxyEnabled ==> proxy.Some?)
    }

    /** The field assignments the constructor makes once the credentials have passed its checks. */
    constructor Init(apikey: string, username: string, password: string)
      ensures Valid()
      ensures this.apikey == apikey && this.username == username && this.password == password
      ensures debugHost == None && !debug && proxy == None && !proxyEnabled
    {
      this.apikey := apikey;
      this.username := username;
      this.password := password;
      debugHost := None;
      debug := false;
      proxy := None;
      proxyEnabled := false;
    }

    /**
     * The four-argument constructor: it throws NO_AUTH_ERROR when the key, the
     * user name or the password is empty, and enters debug mode exactly when a
     * non-null, non-empty debug host is given.
     */
    static method Create(apikey: string, username: string, password: string, debugHost: Option<string>)
      returns (r: Result<WhispirSdk, SdkException>)
      ensures r.Failure? <==> apikey == "" || username == "" || password == ""
      ensures r.Failure? ==> r.error == SdkException(NoAuthError)
      ensures r.Success? ==> fresh(r.value) && r.value.Valid()
      ensures r.Success? ==>
        r.value.apikey == apikey && r.value.username == username && r.value.password == password &&
        r.value.proxy == None && !r.value.proxyEnabled
      ensures r.Success? ==> (r.value.debug <==> debugHost.Some? && debugHost.value != "")
      ensures r.Success? ==> r.value.debugHost == (if r.value.debug then debugHost else None)
    {
      if apikey == "" || username == "" || password == "" {
        return Failure(SdkException(NoAuthError));
      }
      var sdk := new WhispirSdk.Init(apikey, username, password);
      if debugHost.Some? && debugHost.value != "" {
        sdk.SetDebugHost(debugHost.value);
      }
      return Success(sdk);
    }

    /** The three-argument constructor: the four-argument one with an empty debug host, so never in debug mode. */
    static method CreateDefault(apikey: string, username: string, password: string)
      returns (r: Result<WhispirSdk, SdkException>)
      ensures r.Failure? <==> apikey == "" || username == "" || password == ""
      ensures r.Failure? ==> r.error == SdkException(NoAuthError)
      ensures r.Success? ==> fresh(r.value) && r.value.Valid()
      ensures r.Success? ==>
        r.value.apikey == apikey && r.value.username == username && r.value.password == password &&
        r.value.proxy == None && !r.value.proxyEnabled
      ensures r.Success? ==> !r.value.debug && r.value.Host() == Url.ApiHost
    {
      r := Create(apikey, username, password, Some(""));
    }

    method SetApikey(apikey: string)
      requires Valid()
      modifies this`apikey
      ensures Valid() && this.apikey == apikey
    {
      this.apikey := apikey;
    }

    method SetUsername(username: string)
      requires Valid()
      modifies this`username
      ensures Valid() && this.username == username
    {
      this.username := username;
    }

    method SetPassword(password: string)
      requires Valid()
      modifies this`password
      ensures Valid() && this.password == password
    {
      this.password := password;
    }

    /**
     * `setDebugHost`: a non-empty host is stored and switches debug mode on; the
     * empty string switches it off and leaves the stored host as it was.
     */
    method SetDebugHost(debugHost: string)
      requires Valid()
      modifies this`debugHost, this`debug
      ensures Valid()
      ensures debugHost != "" ==> this.debugHost == Some(debugHost) && debug
      ensures debugHost == "" ==> this.debugHost == old(this.debugHost) && !debug
      ensures Host() == if debugHost != "" then debugHost else Url.ApiHost
    {
      if debugHost != "" {
        this.debugHost := Some(debugHost);
        debug := true;
      } else {
        debug := false;
      }
    }

    /** `setProxy`: stores a proxy on the given host and port, over HTTPS exactly when asked, and enables it. */
    method SetProxy(host: string, port: int, httpsEnabled: bool)
      requires Valid()
      modifies this`proxy, this`proxyEnabled
      ensures Valid()
      ensures proxy == Some(ProxyConfig(host, port, ProxyScheme(httpsEnabled)))
      ensures proxyEnabled
    {
      var scheme := "http";
      if httpsEnabled {
        scheme := "https";
      }
      proxy := Some(ProxyConfig(host, port, scheme));
      proxyEnabled := true;
    }

    /** `getHost`: the debug host in debug mode, the production host otherwise; never empty. */
    function Host(): (h: string)
      reads this
      requires Valid()
      ensures h != ""
      ensures debug ==> debugHost == Some(h)
      ensures !debug ==> h == Url.ApiHost
    {
      if debug then debugHost.value else Url.ApiHost
    }

    /**
     * `buildUrl`: scheme, current host, optional workspace segment, resource and
     * API key. In production the URL always starts with "https://api.whispir.com".
     */
    function BuildUrl(workspaceId: Option<string>, resource: string): (url: string)
      reads this
      requires Valid()
      ensures !debug ==> Url.ProperPrefix(Url.ApiScheme + Url.ApiHost, url)
      ensures Url.ProperSuffix(apikey, url)
    {
      Url.ProductionHostUsesHttps();
      Url.ComposeUrl(Host(), apikey, workspaceId, resource)
    }

    /** The scope the credentials are registered for: any host in debug mode, the production host on any port otherwise. */
    function CredentialScope(): (scope: AuthScope)
      reads this
      requires Valid()
      ensures scope.AnyScope? <==> debug
      ensures !debug ==> scope == HostScope(Url.ApiHost, -1)
    {
      if debug then AnyScope else HostScope(Host(), -1)
    }

    /** What one execution of `request` sends: the request as it stands, on a client with the current credentials. */
    function SentWire(request: HttpRequest): Wire
      reads this, request
      requires Valid()
    {
      Wire(request.verb, request.url, request.headers, request.body, request.config,
           CredentialScope(), Credentials(username, password))
    }

    /**
     * The request `get` or `post` sends for a known resource: the URL, both
     * headers set to the resource's media type, the body, the proxy when it is
     * enabled, and the current credentials.
     */
    function PlannedWire(verb: Verb, resource: string, workspaceId: Option<string>, body: Option<string>, c: Headers.Catalogue): Wire
      reads this
      requires Valid() && Headers.HeaderFor(c, resource).Some?
    {
      Wire(verb, BuildUrl(workspaceId, resource), MediaHeaders(Headers.HeaderFor(c, resource).value), body,
           if proxyEnabled then proxy else None, CredentialScope(), Credentials(username, password))
    }

    /** A request built by `createGet` or `createPost` sends, once the proxy is applied, exactly the planned request. */
    lemma SentIsPlanned(request: HttpRequest, verb: Verb, resource: string, workspaceId: Option<string>, body: Option<string>, c: Headers.Catalogue)
      requires Valid() && Headers.HeaderFor(c, resource).Some?
      requires request.verb == verb && request.url == BuildUrl(workspaceId, resource)
      requires request.headers == MediaHeaders(Headers.HeaderFor(c, resource).value) && request.body == body
      requires request.config == if proxyEnabled then proxy else None
      ensures SentWire(request) == PlannedWire(verb, resource, workspaceId, body, c)
    {
    }

    /**
     * `executeRequest`: applies the proxy when it is enabled, then executes the
     * request with the rate-limit retry; the status is 0 when an execution failed.
     */
    method ExecuteRequest(request: HttpRequest, transport: Transport) returns (wr: WhispirResponse)
      requires Valid()
      modifies request`config
      ensures request.config == if proxyEnabled then proxy else old(request.config)
      ensures wr.statusCode == Retry.Run(Attempts(transport, SentWire(request))).status
    {
      var scope := CredentialScope();
      var creds := Credentials(username, password);
      if proxyEnabled {
        request.SetConfig(proxy);
      }
      var wire := Wire(request.verb, request.url, request.headers, request.body, request.config, scope, creds);
      var status, executions, delays := Retry.Execute(Attempts(transport, wire));
      wr := WhispirResponse(status);
    }

    /** `createGet`: a GET on the built URL with the resource's headers; unknown resources throw. */
    method CreateGet(resource: string, workspaceId: Option<string>, c: Headers.Catalogue)
      returns (r: Result<HttpRequest, SdkException>)
      requires Valid()
      ensures r.Failure? <==> Headers.HeaderFor(c, resource).None?
      ensures r.Failure? ==> r.error == SdkException(ResourceNotFoundError)
      ensures r.Success? ==>
        fresh(r.value) && r.value.verb == Verb.Get && r.value.url == old(BuildUrl(workspaceId, resource)) &&
        r.value.headers == MediaHeaders(Headers.HeaderFor(c, resource).value) &&
        r.value.body == None && r.value.config == None
    {
      var url := BuildUrl(workspaceId, resource);
      var request := new HttpRequest(Verb.Get, url);
      var selected := Headers.SetHeaders(request, resource, c);
      if selected.Fail? {
        return Failure(selected.error);
      }
      assert request.headers == MediaHeaders(Headers.HeaderFor(c, resource).value);
      return Success(request);
    }

    /** `createPost`: as `createGet`, with the JSON content as the request body. */
    method CreatePost(resource: string, workspaceId: Option<string>, content: string, c: Headers.Catalogue)
      returns (r: Result<HttpRequest, SdkException>)
      requires Valid()
      ensures r.Failure? <==> Headers.HeaderFor(c, resource).None?
      ensures r.Failure? ==> r.error == SdkException(ResourceNotFoundError)
      ensures r.Success? ==>
        fresh(r.value) && r.value.verb == Verb.Post && r.value.url == old(BuildUrl(workspaceId, resource)) &&
        r.value.headers == MediaHeaders(Headers.HeaderFor(c, resource).value) &&
        r.value.body == Some(content) && r.value.config == None
    {
      var url := BuildUrl(workspaceId, resource);
      var request := new HttpRequest(Verb.Post, url);
      var selected := Headers.SetHeaders(request, resource, c);
      if selected.Fail? {
        return Failure(selected.error);
      }
      assert request.headers == MediaHeaders(Headers.HeaderFor(c, resource).value);
      request.SetBody(content);
      return Success(request);
    }

    /** `get`: an unknown resource throws; otherwise the response of the planned request after the retry rule. */
    method Get(resource: string, workspaceId: Option<string>, c: Headers.Catalogue, transport: Transport)
      returns (r: Result<WhispirResponse, SdkException>)
      requires Valid()
      ensures Headers.HeaderFor(c, resource).None? ==> r == Failure(SdkException(ResourceNotFoundError))
      ensures Headers.HeaderFor(c, resource).Some? ==>
        r == Success(WhispirResponse(Retry.Run(Attempts(transport, PlannedWire(Verb.Get, resource, workspaceId, None, c))).status))
    {
      var created := CreateGet(resource, workspaceId, c);
      if created.Failure? {
        return Failure(created.error);
      }
      var wr := ExecuteRequest(created.value, transport);
      SentIsPlanned(created.value, Verb.Get, resource, workspaceId, None, c);
      return Success(wr);
    }

    /** `post`: an unknown resource throws; otherwise the status of the planned request after the retry rule. */
    method Post(resource: string, workspaceId: Option<string>, jsonContent: string, c: Headers.Catalogue, transport: Transport)
      returns (r: Result<int, SdkException>)
      requires Valid()
      ensures Headers.HeaderFor(c, resource).None? ==> r == Failure(SdkException(ResourceNotFoundError))
      ensures Headers.HeaderFor(c, resource).Some? ==>
        r == Success(Retry.Run(Attempts(transport, PlannedWire(Verb.Post, resource, workspaceId, Some(jsonContent), c))).status)
    {
      var created := CreatePost(resource, workspaceId, jsonContent, c);
      if created.Failure? {
        return Failure(created.error);
      }
      var wr := ExecuteRequest(created.value, transport);
      SentIsPlanned(created.value, Verb.Post, resource, workspaceId, Some(jsonContent), c);
      return Success(wr.statusCode);
    }
  }

  /**
   * The URL depends on the API key and the host alone: user name, password and
   * proxy settings never change it, and asking twice gives the same URL.
   */
  lemma UrlDependsOnlyOnKeyAndHost(a: WhispirSdk, b: WhispirSdk, workspaceId: Option<string>, resource: string)
    requires a.Valid() && b.Valid()
    requires a.apikey == b.apikey && a.debug == b.debug
    requires a.debug ==> a.debugHost == b.debugHost
    ensures a.BuildUrl(workspaceId, resource) == b.BuildUrl(workspaceId, resource)
  {
    assert a.Host() == b.Host();
  }

  /**
   * The credentials always apply to the host the URL names: in debug mode they
   * apply to any host, otherwise the scope's host is the URL's host.
   */
  lemma CredentialsCoverUrlHost(sdk: WhispirSdk, workspaceId: Option<string>, resource: string)
    requires sdk.Valid()
    ensures var scope := sdk.CredentialScope();
      var url := sdk.BuildUrl(workspaceId, resource);
      var start := |Url.Scheme(sdk.Host())|;
      scope.AnyScope? ||
      (scope.port == -1 && start + |scope.host| <= |url| && url[start..start + |scope.host|] == scope.host)
  {
  }
}
