/**
 Properties of the URL builder that relate several builds: the route key
 is determined by the link alone, the caller's default only matters for
 unknown routes, the site can veto secure links, builds only append and
 do not depend on what the buffer held, a full URL is the host part
 followed by the path part, and the host part can be read back into
 the scheme, host and port it was made from.
 */
module UrlProperties {
  import opened JavaString
  import opened UrlBuilder

  datatype Option<T> = None | Some(value: T)

  /** A scheme, host and port as read back from `scheme://host[:port]`. */
  datatype Origin = Origin(secure: bool, host: string, port: string)

  /** Splits `host[:port]` at its first colon; no colon means no port. */
  function HostAndPort(secure: bool, rest: string): Origin
  {
    var k := IndexOf(rest, ':');
    if k == -1 then Origin(secure, rest, "") else Origin(secure, rest[..k], rest[k + 1..])
  }

  /** Reads `https://host[:port]` or `http://host[:port]`; anything else is not an origin. */
  function ParseOrigin(t: string): Option<Origin>
  {
    if StartsWith(t, HttpsScheme) then Some(HostAndPort(true, t[|HttpsScheme|..]))
    else if StartsWith(t, HttpScheme) then Some(HostAndPort(false, t[|HttpScheme|..]))
    else None
  }

  /** The route key of a link is unique: at most one prefix meets its description. */
  lemma RouteKeyUnique(url: string, k1: string, k2: string)
    requires IsRouteKey(url, k1) && IsRouteKey(url, k2)
    ensures k1 == k2
  {
  }

  /**
   A link made of a route name followed by a sub-path, a query or nothing
   is looked up under that name; it fails only when the link is a
   non-empty run of slashes (an empty name followed by slashes only).
   */
  lemma RouteKeyOfLink(name: string, tail: string)
    requires '/' !in name && '?' !in name
    requires tail == [] || tail[0] == '/' || tail[0] == '?'
    ensures RequestMapUri(name + tail)
            == if |name + tail| > 0 && AllChar(name + tail, '/') then Err(NoPathElements) else Ok(name)
  {
    var url := name + tail;
    assert name <= url;
    if |name| < |url| {
      assert url[|name|] == tail[0];
    }
    assert IsRouteKey(url, name);
    match RequestMapUri(url)
    case Err(_) =>
    case Ok(key) =>
      RouteKeyUnique(url, key, name);
  }

  /**
   The caller's `useSSL` changes the host part exactly when the route is
   unknown (the case where a warning is due) and the site enables https;
   a known route's flag always wins.
   */
  lemma DefaultMattersOnlyForUnknownRoutes(b: OfbizUrlBuilder, buffer: string, url: string)
    ensures BuildHostPart(b, buffer, url, true) != BuildHostPart(b, buffer, url, false)
            <==> RouteNotFound(b, url) && b.webSiteProps.enableHttps
  {
  }

  /** For a known route the decision is the route's flag under the site's veto, whatever the caller asked. */
  lemma KnownRouteUsesItsFlag(b: OfbizUrlBuilder, buffer: string, url: string, useSSL: bool)
    requires RequestMapUri(url).Ok? && RequestMapUri(url).value in b.config
    ensures BuildHostPart(b, buffer, url, useSSL).Ok?
    ensures BuildHostPart(b, buffer, url, useSSL).value.makeSecure
            == (b.webSiteProps.enableHttps && b.config[RequestMapUri(url).value])
  {
  }

  /** With https disabled for the site, every link is plain `http://`, whatever the route or the caller say. */
  lemma SiteCanVetoHttps(b: OfbizUrlBuilder, buffer: string, url: string, useSSL: bool)
    requires !b.webSiteProps.enableHttps
    requires BuildHostPart(b, buffer, url, useSSL).Ok?
    ensures !BuildHostPart(b, buffer, url, useSSL).value.makeSecure
    ensures StartsWith(BuildHostPart(b, buffer, url, useSSL).value.buffer[|buffer|..], HttpScheme)
  {
  }

  /**
   The host part only appends, and what it appends does not depend on the
   buffer: building into any buffer gives that buffer followed by the
   text built into an empty one, with the same decision.
   */
  lemma HostPartIgnoresBuffer(b: OfbizUrlBuilder, buffer: string, url: string, useSSL: bool)
    ensures BuildHostPart(b, buffer, url, useSSL).Ok? <==> BuildHostPart(b, [], url, useSSL).Ok?
    ensures BuildHostPart(b, buffer, url, useSSL).Ok? ==>
              BuildHostPart(b, buffer, url, useSSL).value
              == Built(buffer + BuildHostPart(b, [], url, useSSL).value.buffer,
                       BuildHostPart(b, [], url, useSSL).value.makeSecure)
  {
    if BuildHostPart(b, buffer, url, useSSL).Ok? {
      assert [] + HostText(b.webSiteProps, BuildHostPart(b, [], url, useSSL).value.makeSecure)
             == HostText(b.webSiteProps, BuildHostPart(b, [], url, useSSL).value.makeSecure);
    }
  }

  /** The path part only appends, and what it appends does not depend on the buffer. */
  lemma PathPartIgnoresBuffer(b: OfbizUrlBuilder, buffer: string, url: string)
    ensures BuildPathPart(b, buffer, url) == buffer + BuildPathPart(b, [], url)
  {
    assert [] + b.servletPath == b.servletPath;
  }

  /**
   A full URL is the host part followed by the path part, each as built
   into an empty buffer, with the host part's decision.
   */
  lemma FullUrlIsHostThenPath(b: OfbizUrlBuilder, buffer: string, url: string, useSSL: bool)
    ensures BuildFullUrl(b, buffer, url, useSSL).Ok? <==> BuildHostPart(b, [], url, useSSL).Ok?
    ensures BuildFullUrl(b, buffer, url, useSSL).Ok? ==>
              BuildFullUrl(b, buffer, url, useSSL).value
              == Built(buffer + BuildHostPart(b, [], url, useSSL).value.buffer + BuildPathPart(b, [], url),
                       BuildHostPart(b, [], url, useSSL).value.makeSecure)
  {
    HostPartIgnoresBuffer(b, buffer, url, useSSL);
    if BuildFullUrl(b, buffer, url, useSSL).Ok? {
      var host := BuildHostPart(b, buffer, url, useSSL).value;
      PathPartIgnoresBuffer(b, host.buffer, url);
    }
  }

  /** `IndexOf` finds a character at the first place it occurs after a stretch without it. */
  lemma IndexOfAfter(a: string, c: char, b: string)
    requires c !in a
    ensures IndexOf(a + [c] + b, c) == |a|
  {
    var s := a + [c] + b;
    assert s[|a|] == c;
    assert forall j :: 0 <= j < |a| ==> s[j] == a[j];
  }

  /** `host[:port]` reads back as that host and port when the host holds no colon. */
  lemma HostAndPortRoundTrip(secure: bool, host: string, port: string)
    requires ':' !in host
    ensures HostAndPort(secure, host + PortSuffix(port)) == Origin(secure, host, port)
  {
    if port != [] {
      var rest := host + PortSuffix(port);
      assert rest == host + [':'] + port;
      IndexOfAfter(host, ':', port);
      assert rest[..|host|] == host;
      assert rest[|host| + 1..] == port;
    }
  }

  /**
   The host part reads back as the scheme of the decision and the server
   name and port the site configures for that scheme, as long as the
   configured hosts hold no colon.
   */
  lemma HostTextRoundTrip(props: WebSiteProps, makeSecure: bool)
    requires ':' !in props.httpsHost && ':' !in props.httpHost
    ensures makeSecure ==> ParseOrigin(HostText(props, makeSecure))
                           == Some(Origin(true, ServerName(props.httpsHost), props.httpsPort))
    ensures !makeSecure ==> ParseOrigin(HostText(props, makeSecure))
                            == Some(Origin(false, ServerName(props.httpHost), props.httpPort))
  {
    var t := HostText(props, makeSecure);
    if makeSecure {
      var host := ServerName(props.httpsHost);
      assert t[|HttpsScheme|..] == host + PortSuffix(props.httpsPort);
      HostAndPortRoundTrip(true, host, props.httpsPort);
    } else {
      var host := ServerName(props.httpHost);
      assert t[|HttpScheme|..] == host + PortSuffix(props.httpPort);
      HostAndPortRoundTrip(false, host, props.httpPort);
    }
  }
}
