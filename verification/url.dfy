/**
 * The URL resolver of src/url.ts. The WHATWG URL parser (`new URL(...)`)
 * and psl's public-suffix parser (`parse`) are foreign libraries; they
 * enter as the oracle functions of `Parsers`, and everything the resolver
 * does around them (the order of attempts, the fallbacks, the string it
 * builds, the object it merges) is modelled exactly.
 */
module Url {
  import opened Wrappers

  /** A JavaScript value as it appears in the objects the resolver handles. */
  datatype JsValue = JsNull | JsStr(s: string) | JsBool(b: bool)

  /** What a template literal writes for `${v}`. */
  function Render(v: JsValue): string
  {
    match v
    case JsNull => "null"
    case JsStr(s) => s
    case JsBool(b) => if b then "true" else "false"
  }

  function FromNullable(o: Option<string>): JsValue
  {
    match o
    case None => JsNull
    case Some(s) => JsStr(s)
  }

  /**
   * `new URL(input)`: it throws a TypeError, or yields a URL object with
   * its origin, its hostname and the own enumerable properties an object
   * spread copies from it.
   */
  datatype UrlParse =
    | UrlThrows
    | UrlOk(origin: string, hostname: string, own: map<string, JsValue>)

  /**
   * psl's `parse(domain)`: an object carrying `error` (with a code), or a
   * ParsedDomain whose `tld`, `sld`, `domain` and `subdomain` may be null.
   */
  datatype PslParse =
    | PslFailed(code: string)
    | PslOk(input: string, tld: Option<string>, sld: Option<string>,
            domain: Option<string>, subdomain: Option<string>, listed: bool)

  /** The two foreign parsers the resolver consults. */
  datatype Parsers = Parsers(url: string -> UrlParse, psl: string -> PslParse)

  /** The keys of a ParsedDomain object. */
  const PslKeys: set<string> := {"input", "tld", "sld", "domain", "subdomain", "listed"}

  /** The ParsedDomain object as a property map. */
  function PslFields(p: PslParse): (m: map<string, JsValue>)
    requires p.PslOk?
    ensures m.Keys == PslKeys
  {
    map["input" := JsStr(p.input), "tld" := FromNullable(p.tld),
        "sld" := FromNullable(p.sld), "domain" := FromNullable(p.domain),
        "subdomain" := FromNullable(p.subdomain), "listed" := JsBool(p.listed)]
  }

  /** `subdomain || 'www'`: a null or empty subdomain falls back to `www`. */
  function SubdomainOrWww(subdomain: Option<string>): string
  {
    if subdomain.None? || subdomain.value == "" then "www" else subdomain.value
  }

  predicate StartsWith(s: string, prefix: string)
  {
    |prefix| <= |s| && s[..|prefix|] == prefix
  }

  /**
   * `compose`: the origin of a strictly valid URL; otherwise the origin
   * `https://{subdomain || 'www'}.{domain}` built from psl's reading of the
   * input; otherwise the empty string. It never throws.
   */
  function Compose(input: string, parsers: Parsers): (r: string)
    ensures parsers.url(input).UrlOk? ==> r == parsers.url(input).origin
    ensures parsers.url(input).UrlThrows? ==> (r == "" <==> parsers.psl(input).PslFailed?)
    ensures parsers.url(input).UrlThrows? && r != "" ==> StartsWith(r, "https://")
  {
    match parsers.url(input)
    case UrlOk(origin, _, _) => origin
    case UrlThrows =>
      match parsers.psl(input)
      case PslFailed(_) => ""
      case PslOk(_, _, _, domain, subdomain, _) =>
        "https://" + SubdomainOrWww(subdomain) + "." + Render(FromNullable(domain))
  }

  /** When the strict parse succeeds, psl is never consulted: its answer cannot change the result. */
  lemma ComposeIgnoresPslOnValidUrl(input: string, url: string -> UrlParse,
                                    psl1: string -> PslParse, psl2: string -> PslParse)
    requires url(input).UrlOk?
    ensures Compose(input, Parsers(url, psl1)) == Compose(input, Parsers(url, psl2)) == url(input).origin
  {
  }

  /** The fallback origin: the subdomain, or `www` when psl found none, before psl's domain. */
  lemma ComposeFallback(input: string, parsers: Parsers)
    requires parsers.url(input).UrlThrows? && parsers.psl(input).PslOk?
    ensures var p := parsers.psl(input);
      && (p.subdomain.Some? && p.subdomain.value != "" ==>
            Compose(input, parsers) == "https://" + p.subdomain.value + "." + Render(FromNullable(p.domain)))
      && (p.subdomain.None? || p.subdomain.value == "" ==>
            Compose(input, parsers) == "https://www." + Render(FromNullable(p.domain)))
  {
  }

  /** A bare domain such as `example.com`, which the strict parser rejects, becomes `https://www.example.com`. */
  lemma ComposeBareDomain(parsers: Parsers)
    requires parsers.url("example.com").UrlThrows?
    requires parsers.psl("example.com")
             == PslOk("example.com", Some("com"), Some("example"), Some("example.com"), None, true)
    ensures Compose("example.com", parsers) == "https://www.example.com"
  {
  }

  /**
   * `decompose`: the URL object spread with psl's reading of its hostname,
   * or absent when either parser rejects the input. Later properties win
   * in a spread, so psl's keys override any same-named URL property.
   */
  function Decompose(input: string, parsers: Parsers): (r: Option<map<string, JsValue>>)
    ensures r.Some? <==> parsers.url(input).UrlOk? && parsers.psl(parsers.url(input).hostname).PslOk?
    ensures r.Some? ==> PslKeys <= r.value.Keys
    ensures r.Some? ==> r.value.Keys == parsers.url(input).own.Keys + PslKeys
    ensures r.Some? ==> forall k :: k in PslKeys ==>
              r.value[k] == PslFields(parsers.psl(parsers.url(input).hostname))[k]
    ensures r.Some? ==> forall k :: k in r.value && k !in PslKeys ==>
              r.value[k] == parsers.url(input).own[k]
  {
    match parsers.url(input)
    case UrlThrows => None
    case UrlOk(_, hostname, own) =>
      match parsers.psl(hostname)
      case PslFailed(_) => None
      case PslOk(_, _, _, _, _, _) => Some(own + PslFields(parsers.psl(hostname)))
  }

  /** On success the result carries psl's `domain` and `sld` for the URL's hostname. */
  lemma DecomposeCarriesDomainParts(input: string, parsers: Parsers)
    requires Decompose(input, parsers).Some?
    ensures var p := parsers.psl(parsers.url(input).hostname);
      && Decompose(input, parsers).value["domain"] == FromNullable(p.domain)
      && Decompose(input, parsers).value["sld"] == FromNullable(p.sld)
      && Decompose(input, parsers).value["subdomain"] == FromNullable(p.subdomain)
  {
  }
}
