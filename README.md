# Whispir Java SDK: the request pipeline, in Dafny

This project models the deterministic core of `WhispirSDK`, the client class of the
Whispir messaging API SDK for Java. It covers:

- the client's configuration fields and how the constructor and the setters change them;
- the URL builder (production or debug host, `http://` for hosts containing `app`, the
  optional `/workspaces/{id}` segment, the `?apikey=` query);
- the header selector (one media type per resource, used for both `Content-Type` and
  `Accept`);
- the credential scope (any host in debug mode, the resolved host on port -1 otherwise)
  and the proxy setting;
- the rate-limit retry of `executeRequest` and the status that `get` and `post` return.

Modules:

- `Types`: Option, Result, Outcome (pass or fail) and the SDK exception with its message
  constants.
- `Url`: host and scheme constants, `indexOf`, the scheme rule, URL composition.
- `Http`: the Apache HttpClient values the SDK configures (request, proxy, scope,
  credentials) and `Wire`, the description of one execution.
- `Headers`: the resource and media-type constants as an opaque `Catalogue`, and
  `setHeaders`.
- `Retry`: the retry loop over an abstract transport.
- `Sdk`: the `WhispirSdk` class.

The network is a parameter. `Transport` maps the request as sent (`Wire`) and the number
of the execution to a response or an I/O failure. `Retry.Run` is the specification of
what `executeRequest` reports. `Retry.Execute` and `Retry.RetryOverQps` are the code as
the Java method runs it, the loop included, and both are proved equal to `Run`.

The retry rule, as the code has it, is the following. The loop at
`WhispirSDK.java:339-354` runs over the `X-Mashery-Error-Code` values of the *first*
response. It re-executes the request once for every value equal to
`ERR_403_DEVELOPER_OVER_QPS`, and it never looks at the headers of the retried
responses. A first response that is a 403 with k such values therefore leads to 1 + k
executions, not to "at most one retry". An `IOException` from any execution, including
a retry, skips `wr.setStatusCode`, so the reported status is 0. This assumes that the
status field of a new `WhispirResponse` starts at Java's default of 0. That class is not
part of this model, and the local `statusCode = 0` is never copied into `wr` on this path. This holds even when an
earlier execution had a status. The model follows the code on both points.

## Model

| member | source | states |
|---|---|---|
| Url.IndexOfFrom | src/main/java/com/whispir/sdk/WhispirSDK.java:276 | the result is the first position at or after `from` where the pattern occurs, or -1 exactly when there is no such position |
| Url.IndexOf | src/main/java/com/whispir/sdk/WhispirSDK.java:276 | `indexOf` is greater than -1 exactly when the host contains the pattern, and then it is the first occurrence |
| Url.Scheme | src/main/java/com/whispir/sdk/WhispirSDK.java:275-281 | the scheme is `http://` if and only if the host contains `app` as a case-sensitive substring, and `https://` otherwise |
| Url.PathPrefix | src/main/java/com/whispir/sdk/WhispirSDK.java:290-295 | the part between host and resource starts and ends with `/`; it is longer than `/` exactly when the workspace id is non-null and non-empty, and then it is `/workspaces/` followed by the id |
| Url.ComposeUrl | src/main/java/com/whispir/sdk/WhispirSDK.java:283-298 | the URL is scheme, host, path prefix (`/workspaces/{id}/` or `/`), resource, `?apikey=` and key: each of the six parts can be read back from the URL at the position the lengths of the earlier parts give |
| Url.ProductionHostUsesHttps | src/main/java/com/whispir/sdk/WhispirSDK.java:267-281 | `api.whispir.com` does not contain `app`, so the production scheme is `https://` |
| Url.UrlSchemeFollowsHost | src/main/java/com/whispir/sdk/WhispirSDK.java:275-298 | a built URL starts with `http://` exactly when its host contains `app`, and with `https://` otherwise |
| Url.UrlDeterminesResource | src/main/java/com/whispir/sdk/WhispirSDK.java:290-295 | for a fixed host, key and workspace, different resources give different URLs |
| Url.UrlDeterminesApiKey | src/main/java/com/whispir/sdk/WhispirSDK.java:290-295 | for a fixed host, workspace and resource, different API keys give different URLs |
| Url.WorkspaceSegmentChangesUrl | src/main/java/com/whispir/sdk/WhispirSDK.java:290-295 | a non-empty workspace id changes the URL; an empty one gives the same URL as a null one |
| Url.ExampleProductionMessagesUrl | src/main/java/com/whispir/sdk/WhispirSDK.java:283-298 | production host, no workspace, `messages`, key `K1`: `https://api.whispir.com/messages?apikey=K1` |
| Url.ExampleDebugHostUsesHttps | src/main/java/com/whispir/sdk/WhispirSDK.java:275-281 | the debug host `foo.whispir.net:8080` has no `app`, so it keeps `https://` |
| Url.ExampleDebugWorkspaceUrl | src/main/java/com/whispir/sdk/WhispirSDK.java:283-298 | debug host `foo.whispir.net:8080`, workspace `WS1`, `workspaces`, key `K1`: `https://foo.whispir.net:8080/workspaces/WS1/workspaces?apikey=K1` |
| Url.ExampleAppHostUsesHttp | src/main/java/com/whispir/sdk/WhispirSDK.java:275-298 | the debug host `app.whispir.net` gives `http://app.whispir.net/messages?apikey=K1` |
| Http.HttpRequest.constructor | src/main/java/com/whispir/sdk/WhispirSDK.java:220 | a new request has the given method and URL, no headers, no body and no config |
| Http.HttpRequest.SetBody | src/main/java/com/whispir/sdk/WhispirSDK.java:236-238 | the JSON content becomes the request body |
| Http.HttpRequest.SetConfig | src/main/java/com/whispir/sdk/WhispirSDK.java:323-325 | the request's config becomes the given proxy config |
| Headers.HeaderFor | src/main/java/com/whispir/sdk/WhispirSDK.java:250-261 | a media type is selected exactly when the resource is `messages` or `workspaces`, and it is one of the two V1 media types |
| Headers.HeaderSelection | src/main/java/com/whispir/sdk/WhispirSDK.java:246-261 | messages get the message V1 type, workspaces the workspace V1 type, and the two differ |
| Headers.SetHeaders | src/main/java/com/whispir/sdk/WhispirSDK.java:246-265 | a known resource sets `Content-Type` and `Accept` to the same media type; any other resource throws the "not found" exception and leaves the headers unchanged |
| Retry.CountOverQps | src/main/java/com/whispir/sdk/WhispirSDK.java:339-341 | the number of over-QPS values never exceeds the number of header values |
| Retry.CountOverQpsIsMultiplicity | src/main/java/com/whispir/sdk/WhispirSDK.java:339-341 | the count is exactly how many times `ERR_403_DEVELOPER_OVER_QPS` occurs among the header values |
| Retry.PlannedRetries | src/main/java/com/whispir/sdk/WhispirSDK.java:332-341 | the number of planned re-executions is at most the number of header values, and it is positive exactly when the first response is a 403 that carries the over-QPS value |
| Retry.Run | src/main/java/com/whispir/sdk/WhispirSDK.java:327-369 | the closed form of the retry rule, which the code and the lemmas below are stated against; every call executes the request at least once |
| Retry.FirstFailure | src/main/java/com/whispir/sdk/WhispirSDK.java:350 | the result is the first failing execution in the range, or the end of the range when every execution in it succeeds |
| Retry.Execute | src/main/java/com/whispir/sdk/WhispirSDK.java:327-358 | the first execution, then the loop for a 403 or the status as it is otherwise: reports exactly `Run`'s status and execution count, with one delay before each re-execution |
| Retry.RetryOverQps | src/main/java/com/whispir/sdk/WhispirSDK.java:335-358 | the loop over the header values of a 403 first response reports exactly `Run`'s status and execution count, with one delay before each re-execution |
| Retry.RunCompletes | src/main/java/com/whispir/sdk/WhispirSDK.java:339-358 | when every planned execution succeeds, the last one's status is reported after 1 + (planned retries) executions |
| Retry.RunStopsAtFailure | src/main/java/com/whispir/sdk/WhispirSDK.java:350-369 | when planned execution m fails after the earlier ones succeeded, the call stops after m + 1 executions and reports status 0 |
| Retry.NoRetryWithoutOverQps | src/main/java/com/whispir/sdk/WhispirSDK.java:332-341 | a status other than 403, or a 403 without the over-QPS value, gives one execution and its status |
| Retry.RetriedIffOverQps | src/main/java/com/whispir/sdk/WhispirSDK.java:332-354 | the request is executed more than once exactly when the first response is a 403 carrying the over-QPS value |
| Retry.RetriesOncePerOverQpsValue | src/main/java/com/whispir/sdk/WhispirSDK.java:339-354 | a 403 with k over-QPS values gives 1 + k executions and the status of the last one |
| Retry.ExecutionsBounded | src/main/java/com/whispir/sdk/WhispirSDK.java:327-354 | at least one execution and at most one more than the planned retries, which are at most the header values; at least two when a retry is planned; a failed first execution reports status 0 |
| Retry.LaterHeadersNeverExamined | src/main/java/com/whispir/sdk/WhispirSDK.java:335-354 | two transports that agree on the first response and on the status or failure of later executions give the same outcome, whatever headers the retries carry |
| Retry.ExampleRetryHappensOnce | src/main/java/com/whispir/sdk/WhispirSDK.java:332-354 | a 403 over-QPS whose retry is again a 403 over-QPS: two executions, status 403 |
| Retry.ExampleTwoOverQpsValues | src/main/java/com/whispir/sdk/WhispirSDK.java:339-354 | the over-QPS value twice in the first response: three executions |
| Retry.ExampleOtherForbidden | src/main/java/com/whispir/sdk/WhispirSDK.java:332-341 | a 403 with a different error code is returned as it is, after one execution |
| Retry.ExampleFailedRetryReportsZero | src/main/java/com/whispir/sdk/WhispirSDK.java:350-369 | an I/O failure on the retry reports status 0 after two executions |
| Sdk.ProxyScheme | src/main/java/com/whispir/sdk/WhispirSDK.java:145-149 | the proxy scheme is `https` if and only if HTTPS is enabled, and `http` otherwise |
| Sdk.WhispirSdk.Init | src/main/java/com/whispir/sdk/WhispirSDK.java:110-113 | the three credentials are stored; debug mode and the proxy are off |
| Sdk.WhispirSdk.Create | src/main/java/com/whispir/sdk/WhispirSDK.java:98-120 | throws NO_AUTH_ERROR exactly when the key, user name or password is empty; otherwise stores them with the proxy off, and debug mode is on exactly when the debug host is non-null and non-empty |
| Sdk.WhispirSdk.CreateDefault | src/main/java/com/whispir/sdk/WhispirSDK.java:81-84 | the same validation; the client is never in debug mode and uses the production host |
| Sdk.WhispirSdk.SetApikey | src/main/java/com/whispir/sdk/WhispirSDK.java:122-124 | the API key is replaced, with no validation, and the class invariant is kept |
| Sdk.WhispirSdk.SetUsername | src/main/java/com/whispir/sdk/WhispirSDK.java:126-128 | the user name is replaced, with no validation, and the class invariant is kept |
| Sdk.WhispirSdk.SetPassword | src/main/java/com/whispir/sdk/WhispirSDK.java:130-132 | the password is replaced, with no validation, and the class invariant is kept |
| Sdk.WhispirSdk.SetDebugHost | src/main/java/com/whispir/sdk/WhispirSDK.java:134-141 | a non-empty host is stored and turns debug mode on; the empty string turns it off and keeps the stored host; afterwards the host is the new debug host or the production host |
| Sdk.WhispirSdk.SetProxy | src/main/java/com/whispir/sdk/WhispirSDK.java:143-154 | the proxy is the given host and port, with scheme `https` exactly when HTTPS is enabled, and it is enabled |
| Sdk.WhispirSdk.Host | src/main/java/com/whispir/sdk/WhispirSDK.java:267-273 | the debug host in debug mode and `api.whispir.com` otherwise; never empty |
| Sdk.WhispirSdk.BuildUrl | src/main/java/com/whispir/sdk/WhispirSDK.java:283-298 | outside debug mode the URL starts with `https://api.whispir.com`; it always ends with the API key |
| Sdk.WhispirSdk.CredentialScope | src/main/java/com/whispir/sdk/WhispirSDK.java:306-316 | the scope is `ANY` exactly in debug mode; otherwise it is `api.whispir.com` on port -1 |
| Sdk.WhispirSdk.ExecuteRequest | src/main/java/com/whispir/sdk/WhispirSDK.java:300-381 | the proxy config is applied only when the proxy is enabled; the status is `Run`'s status for the request as sent, with the current credentials and scope |
| Sdk.WhispirSdk.CreateGet | src/main/java/com/whispir/sdk/WhispirSDK.java:215-225 | an unknown resource throws; otherwise a new GET on the built URL, with both headers set to the resource's media type |
| Sdk.WhispirSdk.CreatePost | src/main/java/com/whispir/sdk/WhispirSDK.java:227-244 | the same, for a POST whose body is the JSON content |
| Sdk.WhispirSdk.Get | src/main/java/com/whispir/sdk/WhispirSDK.java:202-206 | an unknown resource throws; otherwise the response carries the retry rule's status for the planned GET |
| Sdk.WhispirSdk.Post | src/main/java/com/whispir/sdk/WhispirSDK.java:208-213 | an unknown resource throws; otherwise the result is the retry rule's status for the planned POST, and 0 after a connection failure |
| Sdk.UrlDependsOnlyOnKeyAndHost | src/main/java/com/whispir/sdk/WhispirSDK.java:283-298 | the URL depends only on the API key, the debug flag and the debug host; user name, password and proxy do not change it, and repeated calls give the same URL |
| Sdk.CredentialsCoverUrlHost | src/main/java/com/whispir/sdk/WhispirSDK.java:306-316 | the credentials apply either to any host or to exactly the host named in the URL, on any port |

## Left out

- HTTP I/O: `client.execute`, the status line, reading and consuming the entity,
  `response.close` and `client.close`. The transport is a parameter. The
  `WhispirSDKException` thrown when `client.close()` fails is not modelled.
- An `IOException` from reading or consuming the response body is not modelled. Such an
  error comes after `setStatusCode`, so the status would already be set.
- Sdk.WhispirSdk.ExecuteRequest, Sdk.WhispirSdk.Get, Sdk.WhispirSdk.Post: reading the body
  with `EntityUtils.toString` can throw unchecked exceptions that the `catch (IOException)`
  does not catch. HttpClient gives a final 204, 205 or 304 response no entity, and
  `EntityUtils.toString(null)` throws `IllegalArgumentException`. A `Content-Type` that
  names an unknown charset throws `UnsupportedCharsetException`. Both escape to the
  caller after `setStatusCode`, so the caller gets an exception instead of the status.
  The model has no entity or charset on a response, and it promises the status for
  every response the transport returns.
- The response body: `executeRequest` reads it into a local string and prints it, but
  never stores it in the `WhispirResponse`. Only the status code is modelled.
- The one-second `Thread.sleep` and the swallowed `InterruptedException`. `Retry.Execute`
  only counts the delays, one before each re-execution.
- Logging to `System.out` and `System.err`.
- Body encoding: the `StringEntity` constructor and its `UnsupportedEncodingException`
  path. The JSON content is stored as the body as it is.
- `sendMessage`, `getWorkspaces` and `initHelpers` only forward to `MessageHelperImpl`
  and `WorkspaceHelperImpl`. Those classes are not part of this model.
- `WhispirSDKConstants` is not part of this model. The two resource names and the two
  media types are the fields of `Headers.Catalogue`. Only their distinctness is used.
- Java `null` is modelled only where the code tests for it: the constructor's debug host
  and `buildUrl`'s workspace id. Elsewhere strings are never null. Passing `null` as a
  key, user name or password makes `apikey.equals(null)` throw a `NullPointerException`
  rather than the SDK exception. `setDebugHost(null)` would turn debug mode on with a
  null host. Neither case is modelled.
- The unused private no-argument constructor is not modelled.
- `Headers.SetHeaders` keys headers by their exact name. HttpClient's `setHeader`
  compares names without regard to case. This makes no difference on the fresh requests
  the SDK builds.
- Sdk.WhispirSdk.CreateGet, Sdk.WhispirSdk.CreatePost: `new HttpGet(url)` and
  `new HttpPost(url)` parse the URL with `URI.create` inside HttpClient. That library is
  not part of this model. `buildUrl` escapes nothing, so a workspace id or API key that
  is not legal in a URI, such as one with a space, makes them throw an unchecked
  `IllegalArgumentException`. The model promises a request for every known resource.
- Sdk.WhispirSdk.SetProxy: `new HttpHost(host, port, scheme)` rejects an empty proxy
  host with an `IllegalArgumentException`. The model accepts any host.
- Retry.Execute, Retry.RetryOverQps: each retry overwrites `response` without consuming
  or closing the previous one, and only the last response is closed. The transport is a
  total function, so every execution returns. A pooled client with a per-route limit
  can block on a later execution while earlier connections are still held. That is not
  modelled.
- The proxy port is an unbounded integer, not a 32-bit `int`. No arithmetic is done on it.
- Sdk.WhispirSdk.BuildUrl: its own contract gives only the production prefix and the key
  suffix. The full shape is stated by `Url.ComposeUrl` and the lemmas about it.
