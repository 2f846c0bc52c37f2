/** The navigation hooks of the userscript: the capture-phase click listener,
    the `history.pushState`/`replaceState` wrappers and the `window.open`
    replacement, all built on `rewriteUrl`. */
module Interceptor {
  import opened Wrappers
  import opened Strings
  import opened Classifier

  /** The element `event.target.closest('a, button, [onclick]')` resolved to,
      reduced to what the listener reads: its `tagName`, its `href` property
      (the resolved link of an anchor, `""` when it has none), whether its
      `onclick` property holds a handler, and its raw `onclick` and `href`
      attributes (`None` for `getAttribute` returning `null`). */
  datatype Element = Element(
    tagName: string,
    href: string,
    onclick: bool,
    onclickAttribute: Option<string>,
    hrefAttribute: Option<string>)

  /** JavaScript truthiness of a `getAttribute` result: present and non-empty. */
  predicate Truthy(attribute: Option<string>)
  {
    attribute.Some? && attribute.value != ""
  }

  /** The anchor branch applies: an `A` element whose `href` is non-empty. */
  predicate IsLink(e: Element)
  {
    e.tagName == "A" && e.href != ""
  }

  /** The handler branch applies: not a link, but a handler is attached. */
  predicate HasHandler(e: Element)
  {
    !IsLink(e) && (e.onclick || Truthy(e.onclickAttribute))
  }

  /** Where the handler branch sends the window before rewriting: the raw
      `href` attribute, or the current address when it is absent or empty. */
  function HandlerDestination(e: Element, location: Location): string
  {
    if Truthy(e.hrefAttribute) then e.hrefAttribute.value else location.href
  }

  /** What the listener does to one click: whether it calls `preventDefault`
      and the value it assigns to `window.location.href`, if any. */
  datatype ClickResponse = ClickResponse(preventDefault: bool, navigateTo: Option<string>)

  /** The click listener as a function of the resolved target.  Cancelling
      and re-navigating always go together. */
  function RespondToClick(parse: Parser, originalHostname: string, location: Location, target: Option<Element>): (r: ClickResponse)
    ensures r.preventDefault <==> r.navigateTo.Some?
    ensures r.preventDefault ==> target.Some? && (IsLink(target.value) || HasHandler(target.value))
  {
    match target
    case None => ClickResponse(false, None)
    case Some(e) =>
      if IsLink(e) then
        var newUrl := RewriteUrl(parse, originalHostname, location, e.href);
        if newUrl != e.href then ClickResponse(true, Some(newUrl)) else ClickResponse(false, None)
      else if HasHandler(e) then
        ClickResponse(true, Some(RewriteUrl(parse, originalHostname, location, HandlerDestination(e, location))))
      else
        ClickResponse(false, None)
  }

  /** A link click is cancelled and re-navigated exactly when rewriting
      changes the link, and then it goes to the rewritten value. */
  lemma LinkClick(parse: Parser, originalHostname: string, location: Location, e: Element)
    requires IsLink(e)
    ensures var r := RespondToClick(parse, originalHostname, location, Some(e));
            var newUrl := RewriteUrl(parse, originalHostname, location, e.href);
            (r.preventDefault <==> newUrl != e.href) &&
            r.navigateTo == (if newUrl != e.href then Some(newUrl) else None)
  {
  }

  /** A link to a host that is not blocked is left to the browser: no
      cancellation and no second navigation. */
  lemma SafeLinkUntouched(parse: Parser, originalHostname: string, location: Location, e: Element)
    requires IsLink(e)
    requires parse(e.href, location.origin).Some?
    requires !ParsesToBlocked(parse, location.origin, e.href)
    ensures RespondToClick(parse, originalHostname, location, Some(e)) == ClickResponse(false, None)
  {
  }

  /** A link to a blocked host is cancelled and the window is sent to the
      corrected URL on the captured host. */
  lemma BlockedLinkRedirected(parse: Parser, originalHostname: string, location: Location, e: Element)
    requires IsLink(e)
    requires ParsesToBlocked(parse, location.origin, e.href)
    requires !BlockedHost(originalHostname)
    requires ReparsesToHost(parse, location.origin, originalHostname, e.href)
    ensures RespondToClick(parse, originalHostname, location, Some(e))
            == ClickResponse(true, Some(Corrected(originalHostname, parse(e.href, location.origin).value)))
  {
  }

  /** A link the URL constructor rejects is not let through: the click is
      cancelled and the window is sent to the current address. */
  lemma UnparsableLinkReloads(parse: Parser, originalHostname: string, location: Location, e: Element)
    requires IsLink(e)
    requires parse(e.href, location.origin).None?
    requires e.href != location.href
    ensures RespondToClick(parse, originalHostname, location, Some(e)) == ClickResponse(true, Some(location.href))
  {
  }

  /** A handler-bearing element that is not a link is always cancelled, and
      the window goes to the rewritten `href` attribute or, failing that, to
      the rewritten current address, even when nothing is blocked. */
  lemma HandlerClick(parse: Parser, originalHostname: string, location: Location, e: Element)
    requires HasHandler(e)
    ensures RespondToClick(parse, originalHostname, location, Some(e))
            == ClickResponse(true, Some(RewriteUrl(parse, originalHostname, location, HandlerDestination(e, location))))
    ensures !Truthy(e.hrefAttribute) && !ParsesToBlocked(parse, location.origin, location.href) ==>
              RespondToClick(parse, originalHostname, location, Some(e)).navigateTo == Some(location.href)
  {
  }

  /** No element that is neither a link nor carries a handler (a plain
      button, an anchor without `href` and without handler) is acted on. */
  lemma OtherTargetsUntouched(parse: Parser, originalHostname: string, location: Location, target: Option<Element>)
    requires target.Some? ==> !IsLink(target.value) && !HasHandler(target.value)
    ensures RespondToClick(parse, originalHostname, location, target) == ClickResponse(false, None)
  {
  }

  /** Every navigation the listener starts avoids the blocked hosts when it is
      resolved against the page origin, given a parser that reads corrected
      URLs back and a page that is not itself on a blocked host. */
  lemma ClickNeverNavigatesToBlocked(parse: Parser, originalHostname: string, location: Location, target: Option<Element>)
    requires !BlockedHost(originalHostname)
    requires !ParsesToBlocked(parse, location.origin, location.href)
    requires target.Some? && IsLink(target.value) ==>
               ReparsesToHost(parse, location.origin, originalHostname, target.value.href)
    requires target.Some? && HasHandler(target.value) ==>
               ReparsesToHost(parse, location.origin, originalHostname, HandlerDestination(target.value, location))
    ensures var r := RespondToClick(parse, originalHostname, location, target);
            r.navigateTo.Some? ==> !ParsesToBlocked(parse, location.origin, r.navigateTo.value)
  {
  }

  /** A link to the blocked host on a page served from `site.example`: the
      foreign host is replaced, and path, query and fragment are kept. */
  lemma ExampleLinkClick(parse: Parser, location: Location)
    requires parse("https://youtu-chan.com/foo?x=1#y", location.origin) == Some(Url("youtu-chan.com", "/foo", "?x=1", "#y"))
    ensures RespondToClick(parse, "site.example", location,
              Some(Element("A", "https://youtu-chan.com/foo?x=1#y", false, None, Some("https://youtu-chan.com/foo?x=1#y"))))
            == ClickResponse(true, Some("https://site.example/foo?x=1#y"))
  {
    assert Contains("youtu-chan.com", "youtu-chan.com");
    assert Corrected("site.example", Url("youtu-chan.com", "/foo", "?x=1", "#y")) == "https://site.example/foo?x=1#y";
  }

  /** On a page started on `allmanga.to` and still there, whose current
      address the parser reads back with the page's own host, and given a
      parser that reads corrected URLs of blocked inputs back: no URL the
      page's `rewriteUrl` returns leads to a blocked host, and rewriting it
      again changes nothing. */
  lemma HomePageRewritesSafely(page: Page, url: string)
    requires page.originalHostname == "allmanga.to"
    requires page.location.hostname == page.originalHostname
    requires page.parse(page.location.href, page.location.origin).Some?
    requires page.parse(page.location.href, page.location.origin).value.hostname == page.location.hostname
    requires ReparsesToHost(page.parse, page.location.origin, page.originalHostname, url)
    ensures var once := RewriteUrl(page.parse, page.originalHostname, page.location, url);
            !ParsesToBlocked(page.parse, page.location.origin, once) &&
            RewriteUrl(page.parse, page.originalHostname, page.location, once) == once
  {
    HomeHostNotBlocked();
    assert !ParsesToBlocked(page.parse, page.location.origin, page.location.href);
    RewriteNeverBlocked(page.parse, page.originalHostname, page.location, url);
    RewriteIdempotent(page.parse, page.originalHostname, page.location, url);
  }

  /** One call of a native history method, as the original receives it. */
  datatype HistoryCall<S> =
    | Push(state: S, title: string, url: string)
    | Replace(state: S, title: string, url: string)

  /** The page's `history` object.  The native `pushState`/`replaceState`
      are not modelled beyond the calls they receive, which `calls` records
      in order. */
  class SessionHistory<S> {
    var calls: seq<HistoryCall<S>>

    constructor()
      ensures calls == []
    {
      calls := [];
    }

    /** The original `history.pushState`, saved before it is replaced. */
    method NativePushState(state: S, title: string, url: string)
      modifies this
      ensures calls == old(calls) + [Push(state, title, url)]
    {
      calls := calls + [Push(state, title, url)];
    }

    /** The original `history.replaceState`, saved before it is replaced. */
    method NativeReplaceState(state: S, title: string, url: string)
      modifies this
      ensures calls == old(calls) + [Replace(state, title, url)]
    {
      calls := calls + [Replace(state, title, url)];
    }
  }

  /** A handle on an opened window; the replacement never produces one. */
  datatype WindowHandle = WindowHandle(id: nat)

  /** The `click` event as the listener sees it. */
  class ClickEvent {
    const target: Option<Element>
    var defaultPrevented: bool

    constructor(target: Option<Element>)
      ensures this.target == target && !defaultPrevented
    {
      this.target := target;
      defaultPrevented := false;
    }
  }

  /** The window the userscript runs in: the URL parser, the host captured
      when the script starts, the live location, and the values assigned to
      `window.location.href`, in order (each starts a navigation). */
  class Page {
    const parse: Parser
    const originalHostname: string
    var location: Location
    var navigations: seq<string>

    /** Script start: `originalHostname` is read once from the location. */
    constructor(parse: Parser, location: Location)
      ensures this.parse == parse && this.location == location
      ensures originalHostname == location.hostname
      ensures navigations == []
    {
      this.parse := parse;
      this.location := location;
      originalHostname := location.hostname;
      navigations := [];
    }

    /** The capture-phase click listener: it cancels the event and assigns
        `window.location.href` exactly as `RespondToClick` decides, and
        touches nothing else. */
    method HandleClick(event: ClickEvent)
      modifies this, event
      ensures location == old(location)
      ensures var r := RespondToClick(parse, originalHostname, location, event.target);
              event.defaultPrevented == (old(event.defaultPrevented) || r.preventDefault) &&
              navigations == old(navigations) + (if r.navigateTo.Some? then [r.navigateTo.value] else [])
    {
      match event.target
      case None =>
      case Some(target) =>
        if target.tagName == "A" && target.href != "" {
          var newUrl := RewriteUrl(parse, originalHostname, location, target.href);
          if newUrl != target.href {
            event.defaultPrevented := true;
            navigations := navigations + [newUrl];
          }
        } else if target.onclick || Truthy(target.onclickAttribute) {
          event.defaultPrevented := true;
          var href := if Truthy(target.hrefAttribute) then target.hrefAttribute.value else location.href;
          var newUrl := RewriteUrl(parse, originalHostname, location, href);
          navigations := navigations + [newUrl];
        }
    }

    /** The `history.pushState` wrapper: never cancelled, it calls the
        original exactly once, with the same state and title and the
        rewritten URL. */
    method PushState<S>(history: SessionHistory<S>, state: S, title: string, url: string)
      modifies history
      ensures history.calls == old(history.calls) + [Push(state, title, RewriteUrl(parse, originalHostname, location, url))]
    {
      var newUrl := RewriteUrl(parse, originalHostname, location, url);
      history.NativePushState(state, title, newUrl);
    }

    /** The `history.replaceState` wrapper, the same with `replaceState`. */
    method ReplaceState<S>(history: SessionHistory<S>, state: S, title: string, url: string)
      modifies history
      ensures history.calls == old(history.calls) + [Replace(state, title, RewriteUrl(parse, originalHostname, location, url))]
    {
      var newUrl := RewriteUrl(parse, originalHostname, location, url);
      history.NativeReplaceState(state, title, newUrl);
    }

    /** The `window.open` replacement: it changes nothing (the native
        `open` is never reached), always answers `null`, and logs exactly
        when `rewriteUrl` changed the URL. */
    method Open(url: string) returns (handle: Option<WindowHandle>, logged: bool)
      ensures handle == None
      ensures logged <==> RewriteUrl(parse, originalHostname, location, url) != url
    {
      var newUrl := RewriteUrl(parse, originalHostname, location, url);
      if newUrl == url {
        return None, false;
      }
      return None, true;
    }
  }
}
