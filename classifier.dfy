/** The URL classifier of the userscript: `rewriteUrl` and the fixed
    blocked-domain list it consults. */
module Classifier {
  import opened Wrappers
  import opened Strings

  /** The parts of a parsed URL that `rewriteUrl` reads (the `hostname`,
      `pathname`, `search` and `hash` getters of a WHATWG `URL` object). */
  datatype Url = Url(hostname: string, pathname: string, search: string, hash: string)

  /** `new URL(input, base)`: `None` where the constructor throws.  The parser
      itself is not modelled; every operation takes it as a parameter. */
  type Parser = (string, string) -> Option<Url>

  /** The live `window.location` fields that `rewriteUrl` reads. */
  datatype Location = Location(href: string, origin: string, hostname: string)

  /** The fixed list of blocked hostname fragments. */
  const BlockedDomains: seq<string> := ["youtu-chan.com"]

  /** A hostname is blocked when some entry of the list is a substring of it. */
  predicate BlockedHost(hostname: string)
  {
    ContainsAny(hostname, BlockedDomains)
  }

  /** `input` parses (against `base`) to a URL whose host is blocked. */
  predicate ParsesToBlocked(parse: Parser, base: string, input: string)
  {
    parse(input, base).Some? && BlockedHost(parse(input, base).value.hostname)
  }

  /** The replacement URL: the captured host under a hard-coded `https://`
      scheme, followed by the candidate's path, query and fragment. */
  function Corrected(originalHostname: string, u: Url): string
  {
    "https://" + originalHostname + u.pathname + u.search + u.hash
  }

  /** `rewriteUrl(url)`: the corrected URL when the parsed host is blocked,
      `url` itself (not a normalised form) when it is not, and the current
      `location.href` when the URL constructor throws. */
  function RewriteUrl(parse: Parser, originalHostname: string, location: Location, url: string): (r: string)
    ensures parse(url, location.origin).None? ==> r == location.href
    ensures ParsesToBlocked(parse, location.origin, url) ==>
              r == Corrected(originalHostname, parse(url, location.origin).value)
    ensures parse(url, location.origin).Some? && !ParsesToBlocked(parse, location.origin, url) ==> r == url
  {
    match parse(url, location.origin)
    case None => location.href
    case Some(u) =>
      if ContainsAny(u.hostname, BlockedDomains) then Corrected(originalHostname, u) else url
  }

  /** The one thing the classifier lemmas assume of the parser: when `input`
      parses to a blocked host, its corrected form parses back to the captured
      host.  Nothing is assumed of inputs that are not blocked (an opaque
      `javascript:` or `mailto:` URL among them), since `rewriteUrl` returns
      those unchanged. */
  predicate ReparsesToHost(parse: Parser, base: string, originalHostname: string, input: string)
  {
    ParsesToBlocked(parse, base, input) ==>
      var fixed := Corrected(originalHostname, parse(input, base).value);
      parse(fixed, base).Some? && parse(fixed, base).value.hostname == originalHostname
  }

  /** An input that does not parse to a blocked host needs no assumption on
      the parser: the reparse hypothesis holds for it outright, and
      `rewriteUrl` never turns it into a blocked URL, since it returns the
      input itself or, when the input does not parse, the current address. */
  lemma UnblockedInputsNeedNoReparse(parse: Parser, originalHostname: string, location: Location, url: string)
    requires !ParsesToBlocked(parse, location.origin, url)
    requires !ParsesToBlocked(parse, location.origin, location.href)
    ensures ReparsesToHost(parse, location.origin, originalHostname, url)
    ensures !ParsesToBlocked(parse, location.origin, RewriteUrl(parse, originalHostname, location, url))
  {
  }

  /** No rewritten URL leads to a blocked host, provided the captured host and
      the current page are not blocked themselves. */
  lemma RewriteNeverBlocked(parse: Parser, originalHostname: string, location: Location, url: string)
    requires !BlockedHost(originalHostname)
    requires !ParsesToBlocked(parse, location.origin, location.href)
    requires ReparsesToHost(parse, location.origin, originalHostname, url)
    ensures !ParsesToBlocked(parse, location.origin, RewriteUrl(parse, originalHostname, location, url))
  {
  }

  /** Rewriting an already rewritten URL leaves it unchanged. */
  lemma RewriteIdempotent(parse: Parser, originalHostname: string, location: Location, url: string)
    requires !BlockedHost(originalHostname)
    requires !ParsesToBlocked(parse, location.origin, location.href)
    requires ReparsesToHost(parse, location.origin, originalHostname, url)
    ensures var once := RewriteUrl(parse, originalHostname, location, url);
            RewriteUrl(parse, originalHostname, location, once) == once
  {
  }

  /** The page's own host is not on the list. */
  lemma HomeHostNotBlocked()
    ensures !BlockedHost("allmanga.to")
  {
  }

  /** Blocking is by substring, not by exact match: subdomains and longer
      hosts that contain a listed entry are blocked too. */
  lemma SubstringHostsBlocked()
    ensures BlockedHost("cdn.youtu-chan.com")
    ensures BlockedHost("youtu-chan.com.example")
  {
    assert OccursAt("cdn.youtu-chan.com", "youtu-chan.com", 4);
    assert OccursAt("youtu-chan.com.example", "youtu-chan.com", 0);
  }
}
