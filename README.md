# Redirect blocker for allmanga.to, modelled in Dafny

The userscript `redirect-blocking-extension.js` runs inside pages of
`allmanga.to`. It keeps the page from sending the user to a blocked domain
(`youtu-chan.com`). Every hook it installs shares one classifier,
`rewriteUrl`:

- `rewriteUrl` parses a candidate URL against the page origin. If the
  parsed hostname contains a blocked entry, it returns
  `https://` + the host captured at start + path + query + fragment. If not,
  it returns the candidate unchanged. If the URL constructor throws, it
  returns the current `location.href`.
- A capture-phase click listener handles two kinds of target. A link is
  cancelled and re-navigated when rewriting changes it. A non-link element
  carrying a handler is always cancelled and navigated.
- A mutation observer removes added `SCRIPT` nodes whose `src` contains a
  blocked entry.
- `history.pushState` and `history.replaceState` are wrapped so that they
  pass the rewritten URL to the original methods.
- `window.open` is replaced by a function that always returns `null`.

The model follows the script's structure:

- `wrappers.dfy` defines `Option`.
- `strings.dfy` (module `Strings`) defines `includes` and `some` over it.
- `classifier.dfy` (module `Classifier`) holds the URL record, the blocked
  list and `RewriteUrl`, with its properties.
- `interceptor.dfy` (module `Interceptor`) holds the click listener, the
  history wrappers and `window.open`:
  - the pure decision `RespondToClick`;
  - a `Page` class whose methods change the click event and the page's
    record of navigations the way the listener does;
  - a `SessionHistory` class that records the calls reaching the native
    history methods.
- `observer.dfy` (module `Observer`) holds the observer callback. The
  callback is a pair of nested loops over the mutation records, and each
  blocked script is removed from a `Document` as soon as it is found.

`new URL(input, base)` is not modelled. It is a parameter of type
`Parser = (string, string) -> Option<Url>`, and `None` stands for the
constructor throwing. Some lemmas reparse a rewritten URL. Each of them
assumes, for the one input it talks about, only this: if the input parses
to a blocked host, the corrected URL parses back with the captured host
(`ReparsesToHost`). Nothing is assumed of an input that does not parse to a
blocked host, such as `javascript:void(0)` or a `mailto:` link, because
`rewriteUrl` returns it unchanged (`UnblockedInputsNeedNoReparse`). Only the
host of the corrected URL is assumed to be read back: its path, query and
fragment may be normalised again when it is reparsed (a `\` in the path of
a non-special URL becomes `/`, for one). The corrected URL always has the
`https` scheme, and a blocked input has a non-empty host, so its path is
empty or starts with `/`. The URL parser of the WHATWG URL Standard,
section 4.4, then reads back the host when it is a valid, already canonical
host such as the one read from `location.hostname`.

Behaviours of the script that the model keeps as written:

- A non-link element with a handler is always cancelled and navigated,
  even without an `href` attribute. Then it goes to the rewritten current
  address (`HandlerClick`).
- A link that the URL constructor rejects is not passed through. The click
  is cancelled and the window goes to the current address
  (`UnparsableLinkReloads`).
- `window.open` blocks every call, not only calls to blocked URLs
  (`Page.Open`).
- The script installs no hooks on `location.assign`, `location.replace` or
  the `location.href` setter.
- The rewritten scheme is always `https://`, whatever the page's protocol.
- The observer tests the whole `src` string, not its hostname.

## Model

| member | source | states |
|---|---|---|
| Strings.Contains | redirect-blocking-extension.js:22 | `s.includes(t)` holds exactly when some index of `s` starts a copy of `t` |
| Strings.ContainsAny | redirect-blocking-extension.js:22 | `needles.some(n => s.includes(n))` holds exactly when some entry of the list is a substring of `s` |
| Classifier.RewriteUrl | redirect-blocking-extension.js:19-32 | result is the corrected `https://` URL on the captured host when the parsed host is blocked, the input itself (not a normalised form) when it parses and is not blocked, and the current `href` when parsing throws |
| Classifier.UnblockedInputsNeedNoReparse | redirect-blocking-extension.js:19-32 | an input that does not parse to a blocked host needs no assumption on the parser, and on a page whose current address is not blocked `rewriteUrl` never turns it into a blocked URL |
| Classifier.RewriteNeverBlocked | redirect-blocking-extension.js:19-32 | no result of `rewriteUrl` parses to a blocked host, when neither the captured host nor the current page is blocked |
| Classifier.RewriteIdempotent | redirect-blocking-extension.js:22-27 | rewriting a rewritten URL returns it unchanged, under the same conditions |
| Classifier.HomeHostNotBlocked | redirect-blocking-extension.js:7-16 | the host the script is matched to, `allmanga.to`, contains no blocked entry |
| Classifier.SubstringHostsBlocked | redirect-blocking-extension.js:15-22 | blocking is by substring: `cdn.youtu-chan.com` and `youtu-chan.com.example` are blocked too |
| Interceptor.RespondToClick | redirect-blocking-extension.js:35-54 | the listener cancels the click exactly when it assigns a new location, and only for a link or a handler-bearing target |
| Interceptor.LinkClick | redirect-blocking-extension.js:39-45 | a link click is cancelled exactly when `rewriteUrl(href) !== href`, and the new location is that rewritten value; otherwise nothing happens |
| Interceptor.SafeLinkUntouched | redirect-blocking-extension.js:39-45 | a link to a non-blocked host is neither cancelled nor navigated a second time |
| Interceptor.BlockedLinkRedirected | redirect-blocking-extension.js:39-45 | a link to a blocked host is cancelled and sent to the corrected URL on the captured host |
| Interceptor.UnparsableLinkReloads | redirect-blocking-extension.js:39-45 | a link the URL constructor rejects is cancelled and sent to the current address |
| Interceptor.HandlerClick | redirect-blocking-extension.js:47-52 | a non-link target with an `onclick` property or attribute is always cancelled and sent to the rewritten `href` attribute, or to the current address when that attribute is absent or empty |
| Interceptor.OtherTargetsUntouched | redirect-blocking-extension.js:36-53 | no target, or a target that is neither a link nor carries a handler, is left alone |
| Interceptor.ClickNeverNavigatesToBlocked | redirect-blocking-extension.js:35-54 | every location the listener assigns avoids the blocked hosts when resolved against the page origin, given a parser that reads corrected URLs of blocked inputs back |
| Interceptor.HomePageRewritesSafely | redirect-blocking-extension.js:15-32 | on a page started on `allmanga.to` and still there, whose current address parses back to that host, and given a parser that reads corrected URLs of blocked inputs back: no URL `rewriteUrl` returns leads to a blocked host, and rewriting it again changes nothing |
| Interceptor.ExampleLinkClick | redirect-blocking-extension.js:39-44 | a click on `https://youtu-chan.com/foo?x=1#y` on a page hosted at `site.example` is cancelled and sent to `https://site.example/foo?x=1#y` |
| Interceptor.SessionHistory.NativePushState | redirect-blocking-extension.js:73 | the original `pushState` receives exactly the given state, title and URL |
| Interceptor.SessionHistory.NativeReplaceState | redirect-blocking-extension.js:79 | the original `replaceState` receives exactly the given state, title and URL |
| Interceptor.Page.constructor | redirect-blocking-extension.js:15-16 | the captured host is the location's hostname at start, and no navigation has been started yet |
| Interceptor.Page.HandleClick | redirect-blocking-extension.js:35-54 | the event is cancelled and `window.location.href` is assigned exactly as `RespondToClick` decides, and nothing else changes |
| Interceptor.Page.PushState | redirect-blocking-extension.js:73-77 | never cancelled: it reaches the original exactly once, with the same state and title and with the rewritten URL |
| Interceptor.Page.ReplaceState | redirect-blocking-extension.js:79-83 | never cancelled: it reaches the original exactly once, with the same state and title and with the rewritten URL |
| Interceptor.Page.Open | redirect-blocking-extension.js:86-93 | returns `null` for every URL, changes no state (so never reaches the native `open`), and logs exactly when `rewriteUrl` changed the URL |
| Observer.DoomedMembers | redirect-blocking-extension.js:59-62 | an identity is doomed by one record exactly when some added node with it is a `SCRIPT` whose `src` (or `''`) contains a blocked entry |
| Observer.DoomedInMembers | redirect-blocking-extension.js:57-68 | the doomed identities of a batch are those doomed in one of its records |
| Observer.DoomedByBatch | redirect-blocking-extension.js:57-62 | an identity is doomed by a batch exactly when some record added a blocked script with it |
| Observer.BlockedEntryAnywhereInSource | redirect-blocking-extension.js:61-62 | a `SCRIPT` is removed when a blocked entry occurs anywhere in its `src` string, not only in the host |
| Observer.Without | redirect-blocking-extension.js:63 | a node survives removal exactly when it was attached and its identity is not removed |
| Observer.WithoutWithout | redirect-blocking-extension.js:58-65 | removing one set of nodes after another removes their union |
| Observer.WithoutNothing | redirect-blocking-extension.js:57-68 | removing identities that are not attached leaves the document as it was |
| Observer.WithoutAppend | redirect-blocking-extension.js:63 | removal keeps the relative order of the survivors of any two parts of the document |
| Observer.Document.Remove | redirect-blocking-extension.js:63 | `node.remove()` takes the node's own entry out of the document and keeps every other entry in order |
| Observer.Document.OnRecord | redirect-blocking-extension.js:59-67 | after one record's added nodes are processed, the document is the old one without that record's blocked scripts |
| Observer.Document.OnMutations | redirect-blocking-extension.js:57-68 | after a batch, the document is the old one without the batch's blocked scripts, in the old order |
| Observer.BlockedScriptsGone | redirect-blocking-extension.js:60-65 | no blocked script added in a batch is still attached afterwards |
| Observer.SurvivorsAreTheUntouched | redirect-blocking-extension.js:57-68 | a node's entry stays exactly when it was attached and no blocked script with its identity was added |
| Observer.HarmlessBatchKeepsDocument | redirect-blocking-extension.js:57-68 | a batch with no blocked script leaves the document unchanged |

## Left out

- The URL parser (`new URL`) is an abstract parameter; the WHATWG parsing algorithm is not reimplemented.
- Diagnostic `console.log` lines are not modelled, except whether `window.open` logs.
- `event.target.closest('a, button, [onclick]')` is not modelled: the resolved element is an input. The registration of the listener and the capture phase are not modelled either.
- `preventDefault` is modelled as setting `defaultPrevented`; whether the event is cancelable is not modelled.
- An assignment to `window.location.href` is recorded in `Page.navigations`. The navigation that follows, and the unloading of the page, are not modelled.
- `MutationObserver` scheduling and the `observe` options are not modelled. Whether a script has already run before it is removed is not modelled either.
- The document tree is flattened to its nodes in document order. Node identity is an `id` field.
- Observer.Document.Remove: `node.remove()` also detaches the node's descendants, such as the inline text of a script. The flattened model keeps their entries.
- Observer.Document.OnRecord: the descendants of a removed script stay in the model, though the DOM detaches them with it.
- Observer.Document.OnMutations: the descendants of a removed script stay in the model, though the DOM detaches them with it.
- Observer.SurvivorsAreTheUntouched: its "exactly when" holds for node entries of the flattened model. A descendant of a removed script stays in the model but leaves the DOM.
- Interceptor.ClickNeverNavigatesToBlocked: `rewriteUrl` resolves a URL against `window.location.origin`, but the `location.href` setter resolves it against the document's base URL. On a page with a `<base href>` on a blocked host, a relative handler `href` such as `next` passes `rewriteUrl` unchanged and the window still goes to the blocked host. The lemma speaks of resolution against the origin only; the document base URL is not modelled.
- Replacing the global `history.pushState`, `history.replaceState` and `window.open` is not modelled. Each wrapper is a method that calls a stand-in for the saved original.
- Interceptor.Page.PushState: the native method's return value (`undefined`), which the wrapper passes back, is not modelled.
- Interceptor.Page.ReplaceState: the native method's return value (`undefined`), which the wrapper passes back, is not modelled.
- The native history methods are modelled only by the calls they receive. Their effect on the document URL is not modelled. Neither is the `SecurityError` they raise for a cross-origin URL, such as an `https://` rewrite on an `http://` page.
- Interceptor.Page.Open: "never calls the native `open`" is stated by the method's empty frame (it modifies nothing), not by an `ensures` clause.
- URL arguments are strings. Non-string arguments, such as an omitted `url` (`undefined`) that `new URL` turns into a string, are not modelled.
- The userscript header and its `@match` pattern are not modelled; they are configuration of the host environment.
- Location `assign`/`replace`/setter hooks, storage and cookie clearing, service-worker unregistration, canvas and autoplay handling are not present in this script and are not part of this model.
