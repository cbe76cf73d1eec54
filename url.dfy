/**
 * The URL builder: which host a request goes to, which scheme it uses, and how
 * the workspace segment, the resource and the API key are put together.
 */
module Url {
  import opened Types

  /** The production host, used whenever debug mode is off. */
  const ApiHost: string := "api.whispir.com"
  /** The default scheme; plain HTTP is used only for hosts that contain "app". */
  const ApiScheme: string := "https://"
  const PlainScheme: string := "http://"
  /** Start of the query string that carries the API key. */
  const ApiExt: string := "?apikey="

  /** `pat` occurs in `s` starting at position `i`. */
  predicate OccursAt(s: string, pat: string, i: int)
  {
    0 <= i && i + |pat| <= |s| && s[i..i + |pat|] == pat
  }

  /** Reference definition of Java's `s.contains(pat)`: some occurrence exists. */
  ghost predicate Contains(s: string, pat: string)
  {
    exists i :: OccursAt(s, pat, i)
  }

  /** `s.indexOf(pat, from)`: the first position at or after `from` where `pat` occurs, or -1. */
  function IndexOfFrom(s: string, pat: string, from: nat): (r: int)
    requires from <= |s|
    ensures r == -1 || (from <= r && OccursAt(s, pat, r))
    ensures r == -1 ==> forall j :: from <= j ==> !OccursAt(s, pat, j)
    ensures r != -1 ==> forall j :: from <= j < r ==> !OccursAt(s, pat, j)
    decreases |s| - from
  {
    if from + |pat| > |s| then -1
    else if s[from..from + |pat|] == pat then from
    else IndexOfFrom(s, pat, from + 1)
  }

  /** `s.indexOf(pat)`: the first occurrence of `pat` in `s`, or -1 when there is none. */
  function IndexOf(s: string, pat: string): (r: int)
    ensures r >= -1
    ensures r > -1 <==> Contains(s, pat)
    ensures r > -1 ==> OccursAt(s, pat, r) && forall j :: 0 <= j < r ==> !OccursAt(s, pat, j)
  {
    IndexOfFrom(s, pat, 0)
  }

  /** `getScheme`: plain HTTP exactly when the host contains "app" (case-sensitive), HTTPS otherwise. */
  function Scheme(host: string): (r: string)
    ensures r == PlainScheme <==> Contains(host, "app")
    ensures r == PlainScheme || r == ApiScheme
  {
    if IndexOf(host, "app") > -1 then PlainScheme else ApiScheme
  }

  /** `s` begins with `p`, and something follows it. */
  predicate ProperPrefix(p: string, s: string)
  {
    |p| < |s| && s[..|p|] == p
  }

  /** `s` ends with `p`, and something precedes it. */
  predicate ProperSuffix(p: string, s: string)
  {
    |p| < |s| && s[|s| - |p|..] == p
  }

  /** The workspace id is used only when it is non-null and non-empty. */
  predicate HasWorkspace(workspaceId: Option<string>)
  {
    workspaceId.Some? && workspaceId.value != ""
  }

  /** What comes between the host and the resource: the workspace segment, or a bare "/". */
  function PathPrefix(workspaceId: Option<string>): (p: string)
    ensures 1 <= |p| && p[0] == '/' && p[|p| - 1] == '/'
    ensures |p| > 1 <==> HasWorkspace(workspaceId)
    ensures HasWorkspace(workspaceId) ==>
      |p| == |workspaceId.value| + 13 &&
      p[..12] == "/workspaces/" && p[12..|p| - 1] == workspaceId.value
  {
    if HasWorkspace(workspaceId) then "/workspaces/" + workspaceId.value + "/" else "/"
  }

  /** The six parts of a URL can be read back from their concatenation. */
  lemma Parts(scheme: string, host: string, prefix: string, resource: string, ext: string, key: string)
    ensures var u := scheme + host + prefix + resource + ext + key;
      var r0 := |scheme| + |host| + |prefix|;
      |u| == r0 + |resource| + |ext| + |key| &&
      u[..|scheme|] == scheme &&
      u[|scheme|..|scheme| + |host|] == host &&
      u[|scheme| + |host|..r0] == prefix &&
      u[r0..r0 + |resource|] == resource &&
      u[|u| - |key| - |ext|..|u| - |key|] == ext &&
      u[|u| - |key|..] == key
  {
  }

  /**
   * `buildUrl` once the host is known: scheme + host + ["/workspaces/" + id] + "/" +
   * resource + "?apikey=" + key. Scheme, host, path prefix, resource, "?apikey=" and
   * key can be read back from the URL at the positions their lengths give.
   */
  function ComposeUrl(host: string, apikey: string, workspaceId: Option<string>, resource: string): (url: string)
    ensures var r0 := |Scheme(host)| + |host| + |PathPrefix(workspaceId)|;
      |url| == r0 + |resource| + |ApiExt| + |apikey| &&
      url[..|Scheme(host)|] == Scheme(host) &&
      url[|Scheme(host)|..|Scheme(host)| + |host|] == host &&
      url[|Scheme(host)| + |host|..r0] == PathPrefix(workspaceId) &&
      url[r0..r0 + |resource|] == resource &&
      url[|url| - |apikey| - |ApiExt|..|url| - |apikey|] == ApiExt &&
      url[|url| - |apikey|..] == apikey
  {
    var scheme := Scheme(host);
    Parts(scheme, host, PathPrefix(workspaceId), resource, ApiExt, apikey);
    scheme + host + PathPrefix(workspaceId) + resource + ApiExt + apikey
  }

  /** A string without the first character of `pat` cannot contain `pat`. */
  lemma MissingFirstChar(s: string, pat: string)
    requires |pat| > 0 && pat[0] !in s
    ensures !Contains(s, pat)
  {
    forall i | 0 <= i && i + |pat| <= |s|
      ensures !OccursAt(s, pat, i)
    {
      assert s[i..i + |pat|][0] == s[i];
    }
  }

  /** The production host does not contain "app", so production traffic always uses HTTPS. */
  lemma ProductionHostUsesHttps()
    ensures !Contains(ApiHost, "app")
    ensures Scheme(ApiHost) == ApiScheme
  {
    forall i | 0 <= i && i + 3 <= |ApiHost|
      ensures !OccursAt(ApiHost, "app", i)
    {
      if i == 0 {
        // "api" differs from "app" in its last character
        assert ApiHost[i..i + 3][2] == ApiHost[2];
      } else {
        // the only 'a' of the host is its first character
        assert ApiHost[i..i + 3][0] == ApiHost[1..][i - 1];
        assert 'a' !in ApiHost[1..];
      }
    }
  }

  /** The URL starts with "http://" exactly when its host contains "app"; otherwise it starts with "https://". */
  lemma UrlSchemeFollowsHost(host: string, apikey: string, workspaceId: Option<string>, resource: string)
    ensures var url := ComposeUrl(host, apikey, workspaceId, resource);
      (|url| >= |PlainScheme| && url[..|PlainScheme|] == PlainScheme) <==> Contains(host, "app")
    ensures var url := ComposeUrl(host, apikey, workspaceId, resource);
      !Contains(host, "app") ==> url[..|ApiScheme|] == ApiScheme
  {
    var url := ComposeUrl(host, apikey, workspaceId, resource);
    if !Contains(host, "app") {
      assert url[..|ApiScheme|] == ApiScheme;
      assert url[4] == 's' != PlainScheme[4];
    }
  }

  /** Two URLs built for the same host, key and workspace differ whenever the resources differ. */
  lemma UrlDeterminesResource(host: string, apikey: string, workspaceId: Option<string>, r1: string, r2: string)
    requires ComposeUrl(host, apikey, workspaceId, r1) == ComposeUrl(host, apikey, workspaceId, r2)
    ensures r1 == r2
  {
  }

  /** Two URLs built for the same host, workspace and resource differ whenever the API keys differ. */
  lemma UrlDeterminesApiKey(host: string, k1: string, k2: string, workspaceId: Option<string>, resource: string)
    requires ComposeUrl(host, k1, workspaceId, resource) == ComposeUrl(host, k2, workspaceId, resource)
    ensures k1 == k2
  {
  }

  /** A non-empty workspace id always adds a "/workspaces/{id}" segment, so the URL changes. */
  lemma WorkspaceSegmentChangesUrl(host: string, apikey: string, workspaceId: string, resource: string)
    requires workspaceId != ""
    ensures ComposeUrl(host, apikey, Some(workspaceId), resource) != ComposeUrl(host, apikey, None, resource)
    ensures ComposeUrl(host, apikey, Some(""), resource) == ComposeUrl(host, apikey, None, resource)
  {
  }

  /** Production host, no workspace, resource "messages", key "K1". */
  lemma ExampleProductionMessagesUrl()
    ensures ComposeUrl(ApiHost, "K1", Some(""), "messages")
         == "https://" + "api.whispir.com" + "/" + "messages" + "?apikey=" + "K1"
  {
    ProductionHostUsesHttps();
  }

  /** A debug host without "app" keeps HTTPS and gets the workspace segment. */
  lemma ExampleDebugWorkspaceUrl()
    ensures ComposeUrl(ExampleDebugHost, "K1", Some("WS1"), "workspaces")
         == "https://" + "foo.whispir.net:8080" + "/workspaces/" + "WS1" + "/" + "workspaces" + "?apikey=" + "K1"
  {
    ExampleDebugHostUsesHttps();
  }

  /** A debug host of the documented form "xxxxxxx.whispir.net:8080", without "app" in it. */
  const ExampleDebugHost: string := "foo.whispir.net:8080"

  /** The example debug host does not contain "app". */
  lemma ExampleDebugHostUsesHttps()
    ensures Scheme(ExampleDebugHost) == ApiScheme
  {
    MissingFirstChar(ExampleDebugHost, "app");
  }

  /** A debug host containing "app" switches the URL to plain HTTP. */
  lemma ExampleAppHostUsesHttp()
    ensures ComposeUrl("app.whispir.net", "K1", None, "messages")
         == "http://" + "app.whispir.net" + "/" + "messages" + "?apikey=" + "K1"
  {
    assert OccursAt("app.whispir.net", "app", 0);
  }
}
