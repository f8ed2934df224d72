/**
 The URL assembly of OFBiz's `OfbizUrlBuilder`. A builder holds three
 immutable facts: the controller's request maps (reduced to each
 request-map URI's `securityHttps` flag), the web site's transport
 properties, and the control servlet path. From a link such as
 `checkout/confirm?x=1` it decides whether the link must be secure and
 appends `scheme://host[:port]` (the host part) and
 `servletPath/link` (the path part) to a buffer.

 The `Appendable` buffer is a string: each build takes the buffer's
 contents and returns them with the new text appended.
 */
module UrlBuilder {
  import opened JavaString

  /** The transport settings of a web site (`WebSiteProperties`). */
  datatype WebSiteProps = WebSiteProps(
    enableHttps: bool,
    httpsHost: string,
    httpsPort: string,
    httpHost: string,
    httpPort: string)

  /**
   An `OfbizUrlBuilder`: request-map URI to its `securityHttps` flag,
   the site's transport settings, and the control servlet path.
   */
  datatype OfbizUrlBuilder = OfbizUrlBuilder(
    config: map<string, bool>,
    webSiteProps: WebSiteProps,
    servletPath: string)

  /**
   The one failure the build logic itself can raise: `url.split("/")`
   returns no pieces for a non-empty run of slashes, and reading the
   first piece then fails with an index out of bounds.
   */
  datatype Error = NoPathElements

  datatype Result<T> = Ok(value: T) | Err(error: Error)

  /** The buffer's contents after a build, and the secure decision the build returns. */
  datatype Built = Built(buffer: string, makeSecure: bool)

  /** The host name used when the site leaves its host empty. */
  const DefaultHost: string := "localhost"

  const HttpsScheme: string := "https://"
  const HttpScheme: string := "http://"

  /**
   `key` is the route key of `url`: the longest prefix of `url` holding
   neither a `/` nor a `?`.
   */
  predicate IsRouteKey(url: string, key: string)
  {
    && key <= url
    && '/' !in key
    && '?' !in key
    && (|key| == |url| || url[|key|] == '/' || url[|key|] == '?')
  }

  /**
   The request-map URI looked up for `url`: the first piece of
   `url.split("/")`, cut at its first `?`. It fails exactly when `url`
   is a non-empty run of slashes, and otherwise is the route key.
   */
  function RequestMapUri(url: string): (r: Result<string>)
    ensures r.Err? <==> |url| > 0 && AllChar(url, '/')
    ensures r.Ok? ==> IsRouteKey(url, r.value)
  {
    var pathElements := Split(url, '/');
    if |pathElements| == 0 then Err(NoPathElements)
    else
      var requestMapUri := pathElements[0];
      var queryIndex := IndexOf(requestMapUri, '?');
      if queryIndex != -1 then Ok(requestMapUri[..queryIndex]) else Ok(requestMapUri)
  }

  /**
   The secure decision for a request-map URI: a known route's
   `securityHttps` flag replaces the caller's `useSSL`, an unknown route
   keeps it, and the site's `enableHttps` must allow it either way.
   */
  function MakeSecure(b: OfbizUrlBuilder, requestMapUri: string, useSSL: bool): (r: bool)
    ensures r ==> b.webSiteProps.enableHttps
    ensures requestMapUri in b.config ==> r == (b.webSiteProps.enableHttps && b.config[requestMapUri])
    ensures requestMapUri !in b.config ==> r == (b.webSiteProps.enableHttps && useSSL)
  {
    var routeSecure := if requestMapUri in b.config then b.config[requestMapUri] else useSSL;
    b.webSiteProps.enableHttps && routeSecure
  }

  /** `host`, or `localhost` when it is empty. */
  function ServerName(host: string): (r: string)
    ensures r != []
    ensures host != [] ==> r == host
    ensures host == [] ==> r == DefaultHost
  {
    if host == [] then DefaultHost else host
  }

  /** `:port`, or nothing when the port is empty. */
  function PortSuffix(port: string): (r: string)
    ensures r == [] <==> port == []
    ensures r != [] ==> r[0] == ':' && r[1..] == port
  {
    if port == [] then [] else ":" + port
  }

  /**
   The text the host part appends for a decision: the scheme, the server
   name (never empty) and the port suffix of that scheme's settings. It
   starts with `https://` exactly when the decision is secure.
   */
  function HostText(props: WebSiteProps, makeSecure: bool): (t: string)
    ensures StartsWith(t, HttpsScheme) <==> makeSecure
    ensures makeSecure ==> t == HttpsScheme + ServerName(props.httpsHost) + PortSuffix(props.httpsPort)
    ensures !makeSecure ==> t == HttpScheme + ServerName(props.httpHost) + PortSuffix(props.httpPort)
  {
    if makeSecure then
      var withServer := HttpsScheme + ServerName(props.httpsHost);
      if props.httpsPort != [] then withServer + ":" + props.httpsPort else withServer
    else
      var withServer := HttpScheme + ServerName(props.httpHost);
      var t := if props.httpPort != [] then withServer + ":" + props.httpPort else withServer;
      assert t[4] == ':';
      t
  }

  /**
   `buildHostPart`: decides from the route key of `url` and appends the
   matching scheme, host and port, returning the decision; the old buffer
   is kept in front.
   */
  function BuildHostPart(b: OfbizUrlBuilder, buffer: string, url: string, useSSL: bool): (r: Result<Built>)
    ensures r.Err? <==> |url| > 0 && AllChar(url, '/')
    ensures r.Ok? ==> r.value.makeSecure == MakeSecure(b, RequestMapUri(url).value, useSSL)
    ensures r.Ok? ==> r.value.buffer == buffer + HostText(b.webSiteProps, r.value.makeSecure)
  {
    match RequestMapUri(url)
    case Err(e) => Err(e)
    case Ok(requestMapUri) =>
      var makeSecure := MakeSecure(b, requestMapUri, useSSL);
      Ok(Built(buffer + HostText(b.webSiteProps, makeSecure), makeSecure))
  }

  /**
   The "route not found" flag: the request-map URI of `url` is not a known
   route, so a warning is due. The source logs it only when warning-level
   logging is on; the flag has no effect on the result.
   */
  predicate RouteNotFound(b: OfbizUrlBuilder, url: string)
  {
    RequestMapUri(url).Ok? && RequestMapUri(url).value !in b.config
  }

  /** `url` without one leading slash, if it has one. */
  function DropLeadingSlash(url: string): (r: string)
    ensures StartsWith(url, "/") ==> url == "/" + r
    ensures !StartsWith(url, "/") ==> r == url
  {
    if StartsWith(url, "/") then url[1..] else url
  }

  /**
   `buildPathPart`: appends the servlet path, then a `/` unless `url`
   already starts with one, then `url`. The old buffer survives as a
   prefix and `url` appears verbatim, query included, at the end.
   */
  function BuildPathPart(b: OfbizUrlBuilder, buffer: string, url: string): (r: string)
    ensures buffer + b.servletPath <= r
    ensures r == buffer + b.servletPath + "/" + DropLeadingSlash(url)
    ensures |url| <= |r| && r[|r| - |url|..] == url
  {
    var withPath := buffer + b.servletPath;
    var out := if !StartsWith(url, "/") then withPath + "/" + url else withPath + url;
    assert out[|out| - |url|..] == url;
    out
  }

  /**
   `buildFullUrl`: the host part then the path part against the same
   buffer, returning the host part's decision. It fails exactly when the
   host part does, before anything is appended; otherwise the buffer
   gains scheme, host and port, the servlet path, and `url`, with a `/`
   added between the last two unless `url` already starts with one.
   */
  function BuildFullUrl(b: OfbizUrlBuilder, buffer: string, url: string, useSSL: bool): (r: Result<Built>)
    ensures r.Err? <==> |url| > 0 && AllChar(url, '/')
    ensures r.Ok? ==> r.value.makeSecure == MakeSecure(b, RequestMapUri(url).value, useSSL)
    ensures r.Ok? ==> r.value.buffer
                      == buffer + HostText(b.webSiteProps, r.value.makeSecure)
                         + b.servletPath + "/" + DropLeadingSlash(url)
  {
    match BuildHostPart(b, buffer, url, useSSL)
    case Err(e) => Err(e)
    case Ok(host) =>
      Ok(Built(BuildPathPart(b, host.buffer, url), host.makeSecure))
  }
}
