/**
 * The URL handling around the crawler. The WHATWG URL parser (`new URL(input, base)`,
 * section 4.4 "URL parsing" of the WHATWG URL Standard) is not modelled: it is a
 * parameter of type `Resolver`. Only the checks around it are.
 */
module Url {
  import opened Wrappers

  /** The parts of a URL record the crawler looks at. `scheme` is written without
      the trailing colon that `URL.protocol` adds; `host` is `URL.hostname`. */
  datatype UrlRecord = UrlRecord(
    scheme: string,
    host: string,
    port: Option<nat>,
    path: string,
    query: Option<string>,
    fragment: Option<string>)

  /** `new URL(input, base)` for a given base, or `new URL(input)` when the base is
      None; None as a result stands for the TypeError an unparsable input throws. */
  type Resolver = (string, Option<string>) -> Option<UrlRecord>

  function NatToString(n: nat): string {
    if n < 10 then [DigitChar(n)] else NatToString(n / 10) + [DigitChar(n % 10)]
  }

  function DigitChar(d: nat): char
    requires d < 10
  {
    ['0', '1', '2', '3', '4', '5', '6', '7', '8', '9'][d]
  }

  /** `URL.href`, the URL serializer of section 4.5 of the WHATWG URL Standard
      for a URL with a host and without credentials. */
  function Href(u: UrlRecord): string {
    u.scheme + "://" + u.host
    + (match u.port case Some(p) => ":" + NatToString(p) case None => "")
    + u.path
    + (match u.query case Some(q) => "?" + q case None => "")
    + (match u.fragment case Some(f) => "#" + f case None => "")
  }

  /** `["http:", "https:"].includes(url.protocol)` */
  predicate IsWebScheme(u: UrlRecord) {
    u.scheme == "http" || u.scheme == "https"
  }

  /** `u.hash = ""` clears the fragment. */
  function WithoutFragment(u: UrlRecord): (r: UrlRecord)
    ensures r.fragment.None?
    ensures r.(fragment := u.fragment) == u
  {
    u.(fragment := None)
  }

  /** `getNormalizedUrl(link, baseUrl, rootHostname)`: resolve `link` against `baseUrl`,
      keep it only when its scheme is http or https and its hostname is exactly
      `rootHostname`, and return its href without the fragment. A parse error gives None. */
  function GetNormalizedUrl(link: string, baseUrl: string, rootHostname: string, resolve: Resolver): (r: Option<string>)
    ensures r.Some? <==>
      && resolve(link, Some(baseUrl)).Some?
      && IsWebScheme(resolve(link, Some(baseUrl)).value)
      && resolve(link, Some(baseUrl)).value.host == rootHostname
    ensures r.Some? ==> r.value == Href(WithoutFragment(resolve(link, Some(baseUrl)).value))
  {
    match resolve(link, Some(baseUrl))
    case None => None
    case Some(fullUrl) =>
      if !IsWebScheme(fullUrl) then None
      else
        var cleared := WithoutFragment(fullUrl);
        if cleared.host != rootHostname then None else Some(Href(cleared))
  }

  /** `q` is the href of an http(s) URL without fragment on host `rootHostname`. */
  ghost predicate IsSameSiteHref(q: string, rootHostname: string) {
    exists u: UrlRecord :: Href(u) == q && IsWebScheme(u) && u.host == rootHostname && u.fragment.None?
  }

  /** Whatever `getNormalizedUrl` returns is a same-site http(s) href with no fragment. */
  lemma NormalizedIsSameSite(link: string, baseUrl: string, rootHostname: string, resolve: Resolver)
    requires GetNormalizedUrl(link, baseUrl, rootHostname, resolve).Some?
    ensures IsSameSiteHref(GetNormalizedUrl(link, baseUrl, rootHostname, resolve).value, rootHostname)
  {
    var u := WithoutFragment(resolve(link, Some(baseUrl)).value);
    assert Href(u) == GetNormalizedUrl(link, baseUrl, rootHostname, resolve).value;
  }

  /** Two links that resolve to URLs differing only in the fragment are the same crawl node. */
  lemma FragmentIsIgnored(link1: string, link2: string, baseUrl: string, rootHostname: string, resolve: Resolver)
    requires resolve(link1, Some(baseUrl)).Some? && resolve(link2, Some(baseUrl)).Some?
    requires resolve(link1, Some(baseUrl)).value.(fragment := None) == resolve(link2, Some(baseUrl)).value.(fragment := None)
    ensures GetNormalizedUrl(link1, baseUrl, rootHostname, resolve) == GetNormalizedUrl(link2, baseUrl, rootHostname, resolve)
  {
  }
}
