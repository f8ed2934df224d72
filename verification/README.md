# OfbizUrlBuilder URL assembly in Dafny

This project models how OFBiz's `OfbizUrlBuilder` turns an internal link
such as `checkout/confirm?x=1` into a URL. A builder holds three immutable
facts:

- the controller's request maps, reduced to a `map<string, bool>` from
  request-map URI to its `securityHttps` flag;
- the web site's transport properties (`WebSiteProps`): `enableHttps`, and
  a host and port for https and for http;
- the control servlet path.

For a link, the builder first takes the route key. This is the first piece
of `url.split("/")`, cut at its first `?`. A known route's flag replaces the
caller's `useSSL` default. The result is then ANDed with the site's
`enableHttps`. `buildHostPart` appends `scheme://host[:port]`. An empty host
becomes `localhost`, and an empty port is left out. `buildPathPart` appends
the servlet path, a `/` only when the link has none of its own, and the link
verbatim. `buildFullUrl` does both and returns the host part's decision.

The Java `Appendable` is a string. Each build takes the buffer's contents
and returns them with the new text appended (`Built(buffer, makeSecure)`).
The only failure the build logic itself raises is modelled as
`Err(NoPathElements)`. It happens when `url` is a non-empty run of slashes:
`String.split` then returns an empty array and `pathElements[0]` is out of
bounds.

Files:

- `java_string.dfy` (module `JavaString`): the `java.lang.String` behaviour
  the builder relies on. This covers `startsWith`, `indexOf`, and `split`
  with a one-character separator and limit 0. The `split` model keeps the
  JDK's quirks: a string without the separator comes back whole, so `""`
  gives `[""]`, and trailing empty pieces are dropped. The JDK's own
  `String` source is not part of this model. Its behaviour is modelled from
  the documented semantics of these methods.
- `url_builder.dfy` (module `UrlBuilder`): the builder, the route key, the
  secure decision, and the three build operations.
- `url_properties.dfy` (module `UrlProperties`): lemmas relating several
  builds, plus a parser for `scheme://host[:port]` that reads the host part
  back.
- `url_examples.dfy` (module `UrlExamples`): the usual kinds of link, stated
  for any builder.

A link made only of slashes has no first path element, so
`pathElements[0]` (OfbizUrlBuilder.java:138) fails before anything is
appended.

## Model

| member | source | states |
|---|---|---|
| JavaString.IndexOf | framework/webapp/src/org/ofbiz/webapp/OfbizUrlBuilder.java:139 | `indexOf("?")` gives -1 exactly when the character is absent. Otherwise it gives a position holding the character with no earlier occurrence. |
| JavaString.Before | framework/webapp/src/org/ofbiz/webapp/OfbizUrlBuilder.java:137-138 | The text before the first separator is a prefix of the input without that separator. It reaches either the end of the input or a separator. |
| JavaString.Segments | framework/webapp/src/org/ofbiz/webapp/OfbizUrlBuilder.java:137 | The pieces between separators contain no separator. Joining them with the separator rebuilds the input. The first piece is the text before the first separator. |
| JavaString.DropTrailingEmpty | framework/webapp/src/org/ofbiz/webapp/OfbizUrlBuilder.java:137 | Removing trailing empty pieces leaves a prefix that ends in a non-empty piece, and every removed piece was empty. Nothing is left exactly when every piece was empty. |
| JavaString.SegmentsAllEmpty | framework/webapp/src/org/ofbiz/webapp/OfbizUrlBuilder.java:137-138 | Every piece is empty exactly when the input consists only of separators. |
| JavaString.Split | framework/webapp/src/org/ofbiz/webapp/OfbizUrlBuilder.java:137-138 | `url.split("/")` is empty exactly when `url` is a non-empty run of slashes. Otherwise its first element is the text before the first slash. |
| UrlBuilder.RequestMapUri | framework/webapp/src/org/ofbiz/webapp/OfbizUrlBuilder.java:137-142 | The lookup key fails exactly for a non-empty run of slashes. Otherwise it is the longest prefix of the link that holds neither `/` nor `?`. |
| UrlBuilder.MakeSecure | framework/webapp/src/org/ofbiz/webapp/OfbizUrlBuilder.java:136-147 | A known route's flag replaces `useSSL`, and an unknown route keeps it. Either way the site's `enableHttps` is ANDed in, so the decision is never true when https is disabled. |
| UrlBuilder.ServerName | framework/webapp/src/org/ofbiz/webapp/OfbizUrlBuilder.java:149-152 | The server name is never empty. A non-empty configured host is used as is, and an empty one becomes `localhost` (the same rule serves the http host at lines 159-162). |
| UrlBuilder.PortSuffix | framework/webapp/src/org/ofbiz/webapp/OfbizUrlBuilder.java:155-157 | The port suffix is empty exactly when the port is empty. Otherwise it is `:` followed by the port. |
| UrlBuilder.HostText | framework/webapp/src/org/ofbiz/webapp/OfbizUrlBuilder.java:148-168 | The appended text starts with `https://` if and only if the decision is secure. It is the scheme, then the server name, then the port suffix of the matching settings. |
| UrlBuilder.BuildHostPart | framework/webapp/src/org/ofbiz/webapp/OfbizUrlBuilder.java:135-173 | It fails exactly for a run of slashes. Otherwise the returned decision is the route/default/site decision, and the buffer gains exactly that decision's scheme, host and port after its old contents. |
| UrlBuilder.DropLeadingSlash | framework/webapp/src/org/ofbiz/webapp/OfbizUrlBuilder.java:185-188 | A link with a leading slash is `/` followed by the result. Any other link is returned unchanged. |
| UrlBuilder.BuildPathPart | framework/webapp/src/org/ofbiz/webapp/OfbizUrlBuilder.java:183-189 | The old buffer and the servlet path come first. A `/` is added unless the link already starts with one. The link ends the result verbatim, query included. |
| UrlBuilder.BuildFullUrl | framework/webapp/src/org/ofbiz/webapp/OfbizUrlBuilder.java:118-122 | It fails exactly when the host part fails. Otherwise it returns the host part's decision, and the buffer gains scheme, host, port, servlet path, a `/` unless the link starts with one, and the link. |
| UrlProperties.RouteKeyUnique | framework/webapp/src/org/ofbiz/webapp/OfbizUrlBuilder.java:137-142 | At most one prefix of a link meets the route-key description, so the key depends on the link alone. |
| UrlProperties.RouteKeyOfLink | framework/webapp/src/org/ofbiz/webapp/OfbizUrlBuilder.java:137-142 | A route name followed by a sub-path, a query or nothing is looked up under that name. The only exception is when the whole link is slashes. |
| UrlProperties.DefaultMattersOnlyForUnknownRoutes | framework/webapp/src/org/ofbiz/webapp/OfbizUrlBuilder.java:143-171 | Switching `useSSL` changes the host part if and only if the route is not found (the case where a warning is due) and the site enables https. |
| UrlProperties.KnownRouteUsesItsFlag | framework/webapp/src/org/ofbiz/webapp/OfbizUrlBuilder.java:143-147 | For a known route the decision is `enableHttps && securityHttps`, whatever the caller passed. |
| UrlProperties.SiteCanVetoHttps | framework/webapp/src/org/ofbiz/webapp/OfbizUrlBuilder.java:147-167 | With `enableHttps` false, the decision is false and the appended text starts with `http://`. |
| UrlProperties.HostPartIgnoresBuffer | framework/webapp/src/org/ofbiz/webapp/OfbizUrlBuilder.java:153-166 | The host part only appends. What it appends, and its decision, do not depend on the buffer, so identical calls append identical text. |
| UrlProperties.PathPartIgnoresBuffer | framework/webapp/src/org/ofbiz/webapp/OfbizUrlBuilder.java:184-188 | The path part only appends, and what it appends does not depend on the buffer. |
| UrlProperties.FullUrlIsHostThenPath | framework/webapp/src/org/ofbiz/webapp/OfbizUrlBuilder.java:118-122 | A full URL is the buffer, then the host part, then the path part, each as built into an empty buffer. It carries the host part's decision. |
| UrlProperties.IndexOfAfter | framework/webapp/src/org/ofbiz/webapp/OfbizUrlBuilder.java:156 | In `host:port` with a colon-free host, the first colon sits right after the host. |
| UrlProperties.HostAndPortRoundTrip | framework/webapp/src/org/ofbiz/webapp/OfbizUrlBuilder.java:154-157 | `host[:port]` with a colon-free host reads back as that host and port. |
| UrlProperties.HostTextRoundTrip | framework/webapp/src/org/ofbiz/webapp/OfbizUrlBuilder.java:148-168 | The host part reads back as the decision's scheme and as the server name and port configured for that scheme. |
| UrlExamples.SecureRouteLink | framework/webapp/src/org/ofbiz/webapp/OfbizUrlBuilder.java:118-157 | A sub-path under a secure known route, on an https-enabled site, becomes `https://host[:port]` + servlet path + `/` + link, whatever the default. |
| UrlExamples.UnknownRouteLink | framework/webapp/src/org/ofbiz/webapp/OfbizUrlBuilder.java:143-171 | An unknown route, including the empty name, is flagged as not found (a warning is due) and gives `enableHttps && useSSL`. |
| UrlExamples.QueryKeptInPath | framework/webapp/src/org/ofbiz/webapp/OfbizUrlBuilder.java:139-188 | A query is cut off for the lookup only. The path part keeps it. |
| UrlExamples.LeadingSlashNotDoubled | framework/webapp/src/org/ofbiz/webapp/OfbizUrlBuilder.java:185-188 | `path` and `/path` give the same path part. |
| UrlExamples.LeadingSlashUsesEmptyKey | framework/webapp/src/org/ofbiz/webapp/OfbizUrlBuilder.java:137-147 | A link starting with `/` (and not all slashes) is looked up under the empty key, so its decision is `MakeSecure` of `""`, not of the name after the slash. |
| UrlExamples.SlashesOnlyFail | framework/webapp/src/org/ofbiz/webapp/OfbizUrlBuilder.java:137-138 | A link made only of slashes makes every full build fail. |

## Left out

- The two `from(...)` factories (lines 55-95). They read request attributes, cache the site properties on the request, parse the controller configuration and look up the `WebSite` record. The builder is built directly from the three resolved values instead.
- The unknown-route warning itself (lines 169-171): its text, its destination, and the `Debug.warningOn()` switch that decides whether it is logged. The model only has the "route not found" flag `UrlBuilder.RouteNotFound`, which says when a warning is due, because the log has no effect on the result.
- `IOException` from the `Appendable` and `WebAppConfigurationException` from reading the request maps. These are external failures, and appends are total string concatenation.
- `null` values. A null `url` throws. A null servlet path or host would be appended as `null` or throw. Every string here is a value.
- Java's UTF-16 strings. Dafny characters are Unicode scalar values, so unpaired surrogates cannot be represented and positions differ from Java's for text outside the Basic Multilingual Plane. The separators the builder looks for (`/`, `?`, `:`) are ASCII, so the decisions and the text built are unaffected for any string both can represent.
- Everything a request map holds besides `securityHttps`, because the builder reads no other field.
- UrlProperties.HostTextRoundTrip: only covers sites whose configured hosts contain no `:`. With a colon in the host, `host:port` cannot be read back unambiguously. `UrlBuilder.HostText` still states the exact text for every host.
