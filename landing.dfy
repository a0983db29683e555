/** The landing page's scrolling logic, src/ts/index.ts: canonical path,
    hash normalisation, section lookup and header-offset arithmetic, the
    read-once pending target, the document click listener, and the order in
    which the three sources of an initial scroll are consulted. */
module Landing {
  import opened Base
  import opened Session
  import opened Shared

  /** Height, in CSS pixels, kept clear above a section for the sticky header. */
  const HEADER_OFFSET_PX: real := 80.0

  /** The parts of window.location the page reads and rewrites. */
  datatype Location = Location(pathname: string, search: string, hash: string)

  function Href(l: Location): string {
    l.pathname + l.search + l.hash
  }

  /** The location after history.replaceState(null, "", "/"). */
  const ROOT := Location("/", "", "")

  /** JavaScript truthiness of a `string | null`. */
  predicate Present(o: Option<string>) {
    o.Some? && o.value != ""
  }

  // ------------------------------------------------------------ canonical path

  /** The location canonicalizeLandingPath leaves behind. */
  function CanonicalLocation(l: Location): Location {
    if l.pathname != "/index.html" then l else Location("/", l.search, l.hash)
  }

  /** Only `/index.html` is rewritten, to `/` followed by the unchanged query
      and fragment; rewriting twice is rewriting once. */
  lemma CanonicalKeepsQueryAndFragment(l: Location)
    ensures CanonicalLocation(l).search == l.search && CanonicalLocation(l).hash == l.hash
    ensures l.pathname == "/index.html" ==> Href(CanonicalLocation(l)) == "/" + l.search + l.hash
    ensures l.pathname != "/index.html" ==> CanonicalLocation(l) == l
    ensures CanonicalLocation(CanonicalLocation(l)) == CanonicalLocation(l)
  {
  }

  // ------------------------------------------------------------ hrefs

  /** normalizeLandingHashHref: `/index.html#x` and `/#x` become `#x`. */
  function NormalizeLandingHashHref(href: string): string {
    if StartsWith(href, "/index.html#") then href[11..]
    else if StartsWith(href, "/#") then href[1..]
    else href
  }

  /** Both landing forms of a fragment normalise to the bare fragment. */
  lemma NormalizeStripsLandingPrefix(x: string)
    ensures NormalizeLandingHashHref("/#" + x) == "#" + x
    ensures NormalizeLandingHashHref("/index.html#" + x) == "#" + x
  {
    var a := "/#" + x;
    assert a[..2] == "/#" && a[1..] == "#" + x;
    assert a[1] == '#';
    var b := "/index.html#" + x;
    assert b[..12] == "/index.html#" && b[11..] == "#" + x;
  }

  /** An href whose prefix is neither landing form comes back unchanged. */
  lemma NormalizeLeavesOtherHrefs(href: string)
    requires !StartsWith(href, "/#") && !StartsWith(href, "/index.html#")
    ensures NormalizeLandingHashHref(href) == href
  {
  }

  /** The hrefs the landing page treats as in-page fragments. */
  predicate IsLandingFragment(href: string) {
    StartsWith(href, "#") || StartsWith(href, "/#") || StartsWith(href, "/index.html#")
  }

  /** Normalisation yields a fragment exactly for the in-page forms. */
  lemma NormalizeIsFragmentIff(href: string)
    ensures StartsWith(NormalizeLandingHashHref(href), "#") <==> IsLandingFragment(href)
  {
    var n := NormalizeLandingHashHref(href);
    if StartsWith(href, "/index.html#") {
      assert n[0] == href[11] == '#';
    } else if StartsWith(href, "/#") {
      assert n[0] == href[1] == '#';
    }
  }

  /** Normalising a normalised href changes nothing. */
  lemma NormalizeIdempotent(href: string)
    ensures NormalizeLandingHashHref(NormalizeLandingHashHref(href)) == NormalizeLandingHashHref(href)
  {
    var n := NormalizeLandingHashHref(href);
    if StartsWith(href, "/index.html#") || StartsWith(href, "/#") {
      NormalizeIsFragmentIff(href);
      assert n[0] == '#';
      assert |n| >= 2 ==> n[..2][0] == '#';
      assert |n| >= 12 ==> n[..12][0] == '#';
    }
  }

  // ------------------------------------------------------------ sections

  /** A section element, by the position of its top within the app
      container's scrolled content. */
  datatype Element = Element(offset: real)

  /** What document.querySelector does with a string: throws on a malformed
      selector, finds nothing, or returns the first match. */
  datatype Lookup = SelectorError | NoMatch | Found(element: Element)

  /** getTargetByHash: no lookup for an empty hash or a bare `#`, and no
      target when the selector throws or matches nothing. */
  function GetTargetByHash(find: string -> Lookup, hash: string): (r: Option<Element>)
    ensures hash == "" || hash == "#" ==> r == None
    ensures r.Some? <==> hash != "" && hash != "#" && find(hash).Found?
    ensures r.Some? ==> find(hash) == Found(r.value)
  {
    if hash == "" || hash == "#" then None
    else match find(hash)
      case Found(e) => Some(e)
      case _ => None
  }

  /** The scroll position scrollToAppSection asks for: the target's top
      brought to HEADER_OFFSET_PX below the container's top, clamped at 0. */
  function ScrollDestination(scrollTop: real, targetTop: real, containerTop: real): real {
    var targetPosition := scrollTop + (targetTop - containerTop) - HEADER_OFFSET_PX;
    if targetPosition > 0.0 then targetPosition else 0.0
  }

  /** The destination is never negative. When it is positive the target
      ends exactly HEADER_OFFSET_PX below the container's top; when it is 0
      the target could not be brought that far down, so the content is
      scrolled to its start. */
  lemma ScrollDestinationPlacesTarget(scrollTop: real, targetTop: real, containerTop: real)
    ensures ScrollDestination(scrollTop, targetTop, containerTop) >= 0.0
    ensures var r := ScrollDestination(scrollTop, targetTop, containerTop);
      r > 0.0 ==> targetTop - (r - scrollTop) == containerTop + HEADER_OFFSET_PX
    ensures ScrollDestination(scrollTop, targetTop, containerTop) == 0.0 ==>
      targetTop + scrollTop <= containerTop + HEADER_OFFSET_PX
  {
  }

  /** When the target's viewport top is its content offset minus the current
      scroll, the destination depends only on that offset: scrolling twice to
      one section lands where scrolling once does. */
  lemma ScrollDestinationIgnoresCurrentScroll(a: real, b: real, offset: real, containerTop: real)
    ensures ScrollDestination(a, containerTop + offset - a, containerTop)
         == ScrollDestination(b, containerTop + offset - b, containerTop)
  {
  }

  // ------------------------------------------------------------ pending target

  /** What getPendingLandingScroll returns for a storage state: the stored
      string, or null when the key is absent or storage cannot be reached. */
  function PendingRead(items: map<string, string>, accessible: bool): Option<string> {
    if accessible && LANDING_SCROLL_STORAGE_KEY in items then Some(items[LANDING_SCROLL_STORAGE_KEY]) else None
  }

  /** The storage getPendingLandingScroll leaves behind: the key is removed
      only when a non-empty value was read. */
  function AfterPendingRead(items: map<string, string>, accessible: bool): map<string, string> {
    if Present(PendingRead(items, accessible)) then items - {LANDING_SCROLL_STORAGE_KEY} else items
  }

  /** Read-once: a target that was returned is gone for the next read, and
      no other key is touched. */
  lemma PendingReadIsReadOnce(items: map<string, string>, accessible: bool)
    ensures Present(PendingRead(items, accessible)) ==>
      PendingRead(AfterPendingRead(items, accessible), accessible) == None
    ensures forall k :: k != LANDING_SCROLL_STORAGE_KEY ==>
      (k in AfterPendingRead(items, accessible) <==> k in items)
    ensures forall k :: k != LANDING_SCROLL_STORAGE_KEY && k in items ==>
      AfterPendingRead(items, accessible)[k] == items[k]
  {
  }

  method GetPendingLandingScroll(store: SessionStorage) returns (r: Option<string>)
    modifies store
    ensures r == PendingRead(old(store.items), store.accessible)
    ensures store.items == AfterPendingRead(old(store.items), store.accessible)
  {
    if !store.accessible {
      return None;
    }
    if LANDING_SCROLL_STORAGE_KEY in store.items {
      r := Some(store.items[LANDING_SCROLL_STORAGE_KEY]);
    } else {
      r := None;
    }
    if Present(r) {
      store.items := store.items - {LANDING_SCROLL_STORAGE_KEY};
    }
  }

  /** A target written on one page is read back once on the landing page. */
  method HandOffThroughStorage(store: SessionStorage, target: string) returns (read: Option<string>)
    requires store.accessible && store.writable && target != ""
    modifies store
    ensures read == Some(target)
    ensures store.items == old(store.items) - {LANDING_SCROLL_STORAGE_KEY}
  {
    var ok := SetPendingLandingScrollTarget(store, target);
    read := GetPendingLandingScroll(store);
  }

  // ------------------------------------------------------------ initial scroll

  /** A callback queued for the next animation frame: a scroll to a hash
      fixed when it was queued, or a scroll to whatever the location's hash
      is when the frame runs (the callback of setupInitialScroll's hash
      branch reads window.location.hash only then). */
  datatype FrameCallback = ScrollTo(hash: string) | ScrollToLocationHash

  /** The hash a queued callback scrolls to, given the location when it runs. */
  function FrameHash(f: FrameCallback, at: Location): (h: string)
    ensures f.ScrollTo? ==> h == f.hash
    ensures f.ScrollToLocationHash? ==> h == at.hash
  {
    match f
    case ScrollTo(hash) => hash
    case ScrollToLocationHash => at.hash
  }

  /** The callback setupInitialScroll queues, as written: the stored
      pending target, else the `scroll` query parameter, each fixed when
      queued; else, when the location has a hash, a callback that reads the
      hash when it runs. */
  function InitialScrollFrame(pending: Option<string>, param: Option<string>, hash: string): Option<FrameCallback> {
    if Present(pending) then Some(ScrollTo("#" + pending.value))
    else if Present(param) then Some(ScrollTo("#" + param.value))
    else if hash != "" then Some(ScrollToLocationHash)
    else None
  }

  /** The hash setupInitialScroll is meant to scroll to: the stored pending
      target, else the `scroll` query parameter, else the location's hash as
      it was at set-up. */
  function InitialScrollTarget(pending: Option<string>, param: Option<string>, hash: string): Option<string> {
    if Present(pending) then Some("#" + pending.value)
    else if Present(param) then Some("#" + param.value)
    else if hash != "" then Some(hash)
    else None
  }

  /** At most one source applies, and a source earlier in the order makes
      every later one irrelevant, both for the intended target and for the
      callback actually queued. A callback is queued, and a target chosen,
      exactly when one of the three sources is non-empty, and the target is
      a fragment whenever the hash is. */
  lemma InitialScrollPriority(pending: Option<string>, param: Option<string>, hash: string,
                              param': Option<string>, hash': string)
    ensures Present(pending) ==>
      InitialScrollTarget(pending, param, hash) == InitialScrollTarget(pending, param', hash')
    ensures !Present(pending) && Present(param) ==>
      InitialScrollTarget(pending, param, hash) == InitialScrollTarget(None, param, hash')
    ensures InitialScrollTarget(pending, param, hash).None? <==>
      !Present(pending) && !Present(param) && hash == ""
    ensures Present(pending) ==>
      InitialScrollFrame(pending, param, hash) == InitialScrollFrame(pending, param', hash')
    ensures !Present(pending) && Present(param) ==>
      InitialScrollFrame(pending, param, hash) == InitialScrollFrame(None, param, hash')
    ensures InitialScrollFrame(pending, param, hash).None? <==>
      !Present(pending) && !Present(param) && hash == ""
    ensures (hash == "" || StartsWith(hash, "#")) && InitialScrollTarget(pending, param, hash).Some? ==>
      StartsWith(InitialScrollTarget(pending, param, hash).value, "#")
  {
  }

  /** The callback actually queued scrolls where it is meant to when the
      target comes from storage or the `scroll` parameter, since it fixes
      the target when queued. */
  lemma InitialFrameFixesStoredAndQueryTargets(pending: Option<string>, param: Option<string>, hash: string, at: Location)
    requires Present(pending) || Present(param)
    ensures InitialScrollFrame(pending, param, hash).Some?
    ensures InitialScrollTarget(pending, param, hash).Some?
    ensures FrameHash(InitialScrollFrame(pending, param, hash).value, at) == InitialScrollTarget(pending, param, hash).value
  {
  }

  /** As written, a load whose only source is the location's hash scrolls
      nowhere: the queued callback reads the hash after the location has
      been replaced by `/`, and an empty hash selects no section, although
      the intended target is that hash. */
  lemma HashOnlyLoadScrollsNowhere(find: string -> Lookup, pending: Option<string>, param: Option<string>, hash: string)
    requires !Present(pending) && !Present(param) && hash != ""
    ensures InitialScrollTarget(pending, param, hash) == Some(hash)
    ensures InitialScrollFrame(pending, param, hash) == Some(ScrollToLocationHash)
    ensures GetTargetByHash(find, FrameHash(ScrollToLocationHash, ROOT)) == None
  {
  }

  /** The consequence for the hand-off: when storage refuses the target,
      the landing page opens at `/#target` and, as written, the queued
      callback finds no section to scroll to. */
  lemma FallbackHandOffScrollsNowhere(find: string -> Lookup, items: map<string, string>, accessible: bool,
                                      target: string)
    requires IsSectionId(target)
    requires LANDING_SCROLL_STORAGE_KEY !in items
    ensures var landingHash := LandingUrl(false, target)[1..];
      && landingHash == "#" + target
      && InitialScrollFrame(PendingRead(items, accessible), None, landingHash) == Some(ScrollToLocationHash)
      && GetTargetByHash(find, FrameHash(ScrollToLocationHash, ROOT)) == None
  {
  }

  /** The landing-scroll hand-off from a click on another page: whether or not
      storage takes the target, the landing page scrolls to that section.
      When the write succeeds the page opens at `/` and finds the target in
      storage; when it fails the page opens at `/#target` and is meant to
      take it from the fragment (which, as written, the queued callback
      misses: see FallbackHandOffScrollsNowhere). */
  lemma HandOffReachesSection(items: map<string, string>, accessible: bool, writable: bool,
                              target: string)
    requires IsSectionId(target)
    requires LANDING_SCROLL_STORAGE_KEY !in items
    ensures var stored := accessible && writable;
      var landingItems := if stored then items[LANDING_SCROLL_STORAGE_KEY := target] else items;
      var landingHash := if stored then "" else "#" + target;
      && LandingUrl(stored, target) == "/" + landingHash
      && InitialScrollTarget(PendingRead(landingItems, accessible), None, landingHash) == Some("#" + target)
  {
  }

  /** The hand-off relies on the key being absent before the click: if an
      earlier target is still stored and only the new write fails, the old
      target wins over the fragment. */
  lemma StaleTargetWinsOverFallback(target: string, stale: string)
    requires stale != "" && IsSectionId(target)
    ensures var items := map[LANDING_SCROLL_STORAGE_KEY := stale];
      InitialScrollTarget(PendingRead(items, true), None, LandingUrl(false, target)[1..]) == Some("#" + stale)
  {
  }

  // ------------------------------------------------------------ click routing

  /** shouldIgnoreAnchorForTransition: a click that is handled, not with the
      primary button or with a modifier, or a link that is excluded. */
  predicate ShouldIgnoreAnchorForTransition(ev: Click, a: Anchor, href: string) {
    !IsPlainPrimaryClick(ev) || IsExcludedLink(a, href)
  }

  /** What the listener of setupAnchorNavigation does with a click: leave it
      to the browser, scroll in the page to a fragment, scroll to the link's
      `scroll` query parameter (given as `param`), or navigate with the
      transition. */
  datatype AnchorRoute = Unhandled | InPageScroll(hash: string) | QueryScroll(param: Option<string>) | PageTransition(url: string)

  function RouteAnchorClick(ev: Click, link: Option<Anchor>, linkScrollParam: Option<string>): AnchorRoute {
    if link.None? then Unhandled
    else match link.value.href
      case None => Unhandled
      case Some(href) =>
        if href == "" || href == "#" then Unhandled
        else if ShouldIgnoreAnchorForTransition(ev, link.value, href) then Unhandled
        else if IsLandingFragment(href) then
          var normalizedHash := NormalizeLandingHashHref(href);
          if normalizedHash != "#" then InPageScroll(normalizedHash) else Unhandled
        else if StartsWith(href, "/?scroll=") || StartsWith(href, "/index.html?scroll=") then QueryScroll(linkScrollParam)
        else PageTransition(link.value.url)
  }

  /** Handled, secondary-button and modified clicks, and excluded links, are
      left to the browser. */
  lemma IgnoredAnchorsAreUnhandled(ev: Click, a: Anchor, p: Option<string>)
    requires a.href.Some? && ShouldIgnoreAnchorForTransition(ev, a, a.href.value)
    ensures RouteAnchorClick(ev, Some(a), p) == Unhandled
  {
  }

  /** Fragment hrefs in any of the three forms are never sent through the
      transition: they are scrolled to in the page as their normalised
      fragment, or left to the browser (a bare `#` after normalisation, or a
      click the listener ignores). */
  lemma FragmentLinksStayOnPage(ev: Click, a: Anchor, p: Option<string>)
    requires a.href.Some? && IsLandingFragment(a.href.value)
    ensures var r := RouteAnchorClick(ev, Some(a), p);
      r == Unhandled ||
      (r == InPageScroll(NormalizeLandingHashHref(a.href.value)) && StartsWith(r.hash, "#") && r.hash != "#")
  {
    NormalizeIsFragmentIff(a.href.value);
  }

  /** Conversely, a fragment href in any of the three forms is scrolled to in
      the page exactly when the click is not ignored and the href does not
      normalise to a bare `#`. */
  lemma FragmentLinksScrollIff(ev: Click, a: Anchor, p: Option<string>)
    requires a.href.Some? && a.href.value != "" && a.href.value != "#" && IsLandingFragment(a.href.value)
    ensures RouteAnchorClick(ev, Some(a), p).InPageScroll? <==>
      !ShouldIgnoreAnchorForTransition(ev, a, a.href.value) && NormalizeLandingHashHref(a.href.value) != "#"
  {
  }

  /** A landing-hash href is never a page transition on the landing page. */
  lemma LandingHashNeverTransitions(href: string)
    requires MatchLandingHash(href).Some?
    ensures IsLandingFragment(href)
  {
  }

  /** On links that are neither fragments nor `scroll` query links the two
      listeners agree: the landing page's sends a click through the
      transition to a URL exactly when the shared listener does, and leaves
      it to the browser exactly when the shared one does. */
  lemma RoutersAgreeOnOtherLinks(ev: Click, a: Anchor, p: Option<string>, url: string)
    requires a.href.Some?
    requires !IsLandingFragment(a.href.value)
    requires !StartsWith(a.href.value, "/?scroll=") && !StartsWith(a.href.value, "/index.html?scroll=")
    ensures RouteAnchorClick(ev, Some(a), p) == PageTransition(url) <==> RouteClick(ev, Some(a)) == TransitionTo(url)
    ensures RouteAnchorClick(ev, Some(a), p) == Unhandled <==> RouteClick(ev, Some(a)) == PassThrough
  {
    var href := a.href.value;
    if MatchLandingHash(href).Some? {
      LandingHashNeverTransitions(href);
    }
    assert MatchLandingHash(href).None?;
    if href == "#" {
      assert StartsWith(href, "#");
    }
  }

  /** Where the two listeners differ: a landing-hash link that opens a new
      browsing context is taken over by the shared listener, which checks the
      pattern first, and left alone by the landing page's. */
  lemma BlankLandingLinkDiffers(ev: Click, a: Anchor, target: string, p: Option<string>)
    requires IsPlainPrimaryClick(ev) && IsSectionId(target)
    requires a.href == Some("/#" + target) && a.target == "_blank"
    ensures RouteClick(ev, Some(a)) == LandingJump(target)
    ensures RouteAnchorClick(ev, Some(a), p) == Unhandled
  {
    LandingJumpIff(ev, a, target);
  }

  // ------------------------------------------------------------ the page

  /** One call of `scrollTo` on the app container. */
  datatype ScrollCall = ScrollCall(top: real, smooth: bool)

  /** The landing page: its navigator and session storage, the document's
      selector lookup, the app container (whether it exists and where its top
      is), the location, the container's scroll position, the scrollTo calls
      made so far and the callbacks queued for the next animation frame. */
  class Page {
    const nav: Navigator
    const store: SessionStorage
    const find: string -> Lookup
    const hasContainer: bool
    const containerTop: real
    var location: Location
    var scrollTop: real
    var scrolls: seq<ScrollCall>
    var frames: seq<FrameCallback>

    constructor (nav: Navigator, store: SessionStorage, find: string -> Lookup,
                 hasContainer: bool, containerTop: real, location: Location)
      ensures this.nav == nav && this.store == store && this.find == find
      ensures this.hasContainer == hasContainer && this.containerTop == containerTop
      ensures this.location == location && scrollTop == 0.0 && scrolls == [] && frames == []
    {
      this.nav := nav;
      this.store := store;
      this.find := find;
      this.hasContainer := hasContainer;
      this.containerTop := containerTop;
      this.location := location;
      scrollTop := 0.0;
      scrolls := [];
      frames := [];
    }

    /** The position scrollToAppSection scrolls to from scroll position
        `from`, or None when there is no target or no container. */
    function Destination(hash: string, from: real): Option<real> {
      match GetTargetByHash(find, hash)
      case None => None
      case Some(el) =>
        if hasContainer then Some(ScrollDestination(from, containerTop + el.offset - from, containerTop)) else None
    }

    /** A scrolled section ends up clear of the header, and the position
        does not depend on where the container was scrolled before. */
    lemma DestinationIsStable(hash: string, a: real, b: real)
      ensures Destination(hash, a) == Destination(hash, b)
      ensures Destination(hash, a).Some? ==> Destination(hash, a).value >= 0.0
    {
      match GetTargetByHash(find, hash)
      case None =>
      case Some(el) =>
        ScrollDestinationIgnoresCurrentScroll(a, b, el.offset, containerTop);
        ScrollDestinationPlacesTarget(a, containerTop + el.offset - a, containerTop);
    }

    /** The state after scrollToAppSection(hash) from scroll position
        `top0` with scrollTo calls `calls0`. */
    ghost predicate ScrolledFor(hash: string, top0: real, calls0: seq<ScrollCall>)
      reads this
    {
      match Destination(hash, top0)
      case Some(top) => scrollTop == top && scrolls == calls0 + [ScrollCall(top, !nav.reducedMotion)]
      case None => scrollTop == top0 && scrolls == calls0
    }

    method ScrollToAppSection(hash: string)
      modifies this`scrollTop, this`scrolls
      ensures ScrolledFor(hash, old(scrollTop), old(scrolls))
    {
      var target := GetTargetByHash(find, hash);
      if target.None? || !hasContainer {
        return;
      }
      var targetTop := containerTop + target.value.offset - scrollTop;
      var top := ScrollDestination(scrollTop, targetTop, containerTop);
      scrollTop := top;
      scrolls := scrolls + [ScrollCall(top, !nav.reducedMotion)];
    }

    /** The next animation frame runs the earliest queued callback, reading
        the location's hash then if that callback does. */
    method RunFrame()
      requires frames != []
      modifies this`scrollTop, this`scrolls, this`frames
      ensures frames == old(frames[1..])
      ensures ScrolledFor(FrameHash(old(frames[0]), location), old(scrollTop), old(scrolls))
    {
      var callback := frames[0];
      frames := frames[1..];
      var hash := match callback
        case ScrollTo(h) => h
        case ScrollToLocationHash => location.hash;
      ScrollToAppSection(hash);
    }

    method CanonicalizeLandingPath()
      modifies this`location
      ensures location == CanonicalLocation(old(location))
    {
      if location.pathname != "/index.html" {
        return;
      }
      location := Location("/", location.search, location.hash);
    }

    /** setupInitialScroll; `scrollParam` is the `scroll` parameter of the
        location's query string. */
    method SetupInitialScroll(scrollParam: Option<string>)
      modifies this`frames, this`location, store
      ensures var f := InitialScrollFrame(PendingRead(old(store.items), store.accessible), scrollParam, old(location).hash);
        && store.items == AfterPendingRead(old(store.items), store.accessible)
        && frames == (if f.Some? then old(frames) + [f.value] else old(frames))
        && location == (if f.Some? then ROOT else old(location))
    {
      var pending := GetPendingLandingScroll(store);
      if Present(pending) {
        frames := frames + [ScrollTo("#" + pending.value)];
        location := ROOT;
        return;
      }
      if Present(scrollParam) {
        frames := frames + [ScrollTo("#" + scrollParam.value)];
        location := ROOT;
        return;
      }
      if location.hash != "" {
        frames := frames + [ScrollToLocationHash];
        location := ROOT;
      }
    }

    /** The hashchange listener of setupHashScrollHandler. */
    method OnHashChange()
      modifies this`frames, this`location
      ensures old(location).hash != "" ==> frames == old(frames) + [ScrollTo(old(location).hash)] && location == ROOT
      ensures old(location).hash == "" ==> frames == old(frames) && location == old(location)
    {
      var nextHash := location.hash;
      if nextHash == "" {
        return;
      }
      frames := frames + [ScrollTo(nextHash)];
      location := ROOT;
    }

    /** The listener of setupAnchorNavigation. `linkScrollParam` is the
        `scroll` parameter of the link's resolved URL; `prevented` tells
        whether the click's default action was cancelled. */
    method HandleAnchorClick(ev: Click, link: Option<Anchor>, linkScrollParam: Option<string>)
      returns (prevented: bool)
      requires nav.Valid()
      modifies this`scrollTop, this`scrolls, this`frames, this`location, nav
      ensures nav.Valid()
      ensures prevented <==> !RouteAnchorClick(ev, link, linkScrollParam).Unhandled?
      ensures match RouteAnchorClick(ev, link, linkScrollParam)
        case Unhandled => unchanged(this) && unchanged(nav)
        case InPageScroll(hash) =>
          ScrolledFor(hash, old(scrollTop), old(scrolls)) &&
          location == old(location) && frames == old(frames) && unchanged(nav)
        case QueryScroll(param) =>
          scrollTop == old(scrollTop) && scrolls == old(scrolls) && unchanged(nav) &&
          (if Present(param) then frames == old(frames) + [ScrollTo("#" + param.value)] && location == ROOT
           else frames == old(frames) && location == old(location))
        case PageTransition(url) =>
          unchanged(this) && nav.State() == NavigateStep(old(nav.State()), nav.reducedMotion, url)
    {
      var route := RouteAnchorClick(ev, link, linkScrollParam);
      match route
      case Unhandled =>
        prevented := false;
      case InPageScroll(hash) =>
        prevented := true;
        ScrollToAppSection(hash);
      case QueryScroll(param) =>
        prevented := true;
        if Present(param) {
          frames := frames + [ScrollTo("#" + param.value)];
          location := ROOT;
        }
      case PageTransition(url) =>
        prevented := true;
        nav.Navigate(url);
    }

    /** The page's start-up: the canonical path is fixed first, then the
        initial scroll is chosen from the canonical location. */
    method Load(scrollParam: Option<string>)
      modifies this`frames, this`location, store
      ensures var canonical := CanonicalLocation(old(location));
        var f := InitialScrollFrame(PendingRead(old(store.items), store.accessible), scrollParam, canonical.hash);
        && store.items == AfterPendingRead(old(store.items), store.accessible)
        && frames == (if f.Some? then old(frames) + [f.value] else old(frames))
        && location == (if f.Some? then ROOT else canonical)
    {
      CanonicalizeLandingPath();
      SetupInitialScroll(scrollParam);
    }
  }
}
