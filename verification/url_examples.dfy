/**
 The typical links a web application builds, stated for any builder: a
 link under a known secure route, a link under an unknown route, a route
 name with a query, a link with or without its own leading slash, and a
 link made of slashes only.
 */
module UrlExamples {
  import opened JavaString
  import opened UrlBuilder
  import opened UrlProperties

  /**
   A sub-path under a route marked secure, on a site that enables https,
   becomes `https://` with the site's https host and port, the servlet
   path, and the link, whatever the caller's default.
   */
  lemma SecureRouteLink(b: OfbizUrlBuilder, buffer: string, name: string, sub: string, useSSL: bool)
    requires name != [] && '/' !in name && '?' !in name
    requires name in b.config && b.config[name]
    requires b.webSiteProps.enableHttps
    ensures BuildFullUrl(b, buffer, name + "/" + sub, useSSL)
            == Ok(Built(buffer + HttpsScheme + ServerName(b.webSiteProps.httpsHost)
                        + PortSuffix(b.webSiteProps.httpsPort)
                        + b.servletPath + "/" + name + "/" + sub, true))
  {
    var url := name + "/" + sub;
    var props := b.webSiteProps;
    var host := HostText(props, true);
    var origin := buffer + HttpsScheme + ServerName(props.httpsHost) + PortSuffix(props.httpsPort);
    var mounted := origin + b.servletPath + "/";
    assert buffer + host == origin;
    assert mounted + url == mounted + name + "/" + sub;
    assert url == name + ("/" + sub);
    assert url[0] == name[0] != '/';
    assert DropLeadingSlash(url) == url;
    RouteKeyOfLink(name, "/" + sub);
  }

  /**
   A link whose route is unknown is flagged as not found (a warning is
   due) and keeps the caller's default, still under the site's veto.
   */
  lemma UnknownRouteLink(b: OfbizUrlBuilder, buffer: string, name: string, tail: string, useSSL: bool)
    requires '/' !in name && '?' !in name
    requires tail == [] || tail[0] == '/' || tail[0] == '?'
    requires !(|name + tail| > 0 && AllChar(name + tail, '/'))
    requires name !in b.config
    ensures RouteNotFound(b, name + tail)
    ensures BuildHostPart(b, buffer, name + tail, useSSL).Ok?
    ensures BuildHostPart(b, buffer, name + tail, useSSL).value.makeSecure
            == (b.webSiteProps.enableHttps && useSSL)
  {
    RouteKeyOfLink(name, tail);
  }

  /**
   A link with its own leading slash has an empty first path element, so
   it is looked up under the empty key, not under the name that follows
   the slash: `/checkout` is decided as the route `""`, whatever
   `checkout` is marked.
   */
  lemma LeadingSlashUsesEmptyKey(b: OfbizUrlBuilder, buffer: string, rest: string, useSSL: bool)
    requires !AllChar("/" + rest, '/')
    ensures RequestMapUri("/" + rest) == Ok("")
    ensures BuildHostPart(b, buffer, "/" + rest, useSSL).Ok?
    ensures BuildHostPart(b, buffer, "/" + rest, useSSL).value.makeSecure == MakeSecure(b, "", useSSL)
  {
    assert [] + ("/" + rest) == "/" + rest;
    RouteKeyOfLink([], "/" + rest);
  }

  /**
   A query on the route name is cut off for the lookup only: the route
   is found under the bare name and the path part keeps the query.
   */
  lemma QueryKeptInPath(b: OfbizUrlBuilder, buffer: string, name: string, query: string)
    requires name != [] && '/' !in name && '?' !in name
    ensures RequestMapUri(name + "?" + query) == Ok(name)
    ensures BuildPathPart(b, buffer, name + "?" + query) == buffer + b.servletPath + "/" + name + "?" + query
  {
    var url := name + "?" + query;
    var mounted := buffer + b.servletPath + "/";
    assert mounted + url == mounted + name + "?" + query;
    assert url == name + ("?" + query);
    assert url[0] == name[0] != '/';
    assert DropLeadingSlash(url) == url;
    RouteKeyOfLink(name, "?" + query);
  }

  /**
   A link's own leading slash is not doubled: `orders` and `/orders` give
   the same path part. Their host parts can differ, because `/orders` is
   looked up under the empty key (see `LeadingSlashUsesEmptyKey`).
   */
  lemma LeadingSlashNotDoubled(b: OfbizUrlBuilder, buffer: string, path: string)
    requires !StartsWith(path, "/")
    ensures BuildPathPart(b, buffer, "/" + path) == BuildPathPart(b, buffer, path)
  {
  }

  /** A link made of slashes only has no first path element, so every build of it fails. */
  lemma SlashesOnlyFail(b: OfbizUrlBuilder, buffer: string, n: nat, useSSL: bool)
    ensures BuildFullUrl(b, buffer, seq(n + 1, _ => '/'), useSSL) == Err(NoPathElements)
  {
  }
}
