/** The cross-page navigation of src/ts/shared.ts: the page-transition
    navigator, the landing-scroll hand-off through session storage, and the
    document-level click listener that routes anchor clicks between them. */
module Shared {
  import opened Base
  import opened Session

  /** The session-storage key under which a pending landing-page section is kept. */
  const LANDING_SCROLL_STORAGE_KEY := "landingScrollTarget"
  /** The default delay, in milliseconds, between starting the leave transition and navigating. */
  const DEFAULT_DELAY_MS := 220

  // ------------------------------------------------------------ landing-hash hrefs

  /** The characters of a section id: ASCII letters, digits, `_` and `-`. */
  predicate IsIdChar(c: char) {
    ('a' <= c <= 'z') || ('A' <= c <= 'Z') || ('0' <= c <= '9') || c == '_' || c == '-'
  }

  /** A non-empty run of section-id characters. */
  predicate IsSectionId(s: string) {
    |s| > 0 && forall i :: 0 <= i < |s| ==> IsIdChar(s[i])
  }

  /** The landing-hash pattern: a slash, optionally `index.html`, a `#`, and a
      section id reaching to the end of the href. On a match the result holds
      the captured id. */
  function MatchLandingHash(href: string): (r: Option<string>)
    ensures r.Some? ==> IsSectionId(r.value) && |r.value| < |href|
  {
    if StartsWith(href, "/#") && IsSectionId(href[2..]) then Some(href[2..])
    else if StartsWith(href, "/index.html#") && IsSectionId(href[12..]) then Some(href[12..])
    else None
  }

  /** An href matches exactly when it is `/#id` or `/index.html#id`, and the capture is that id. */
  lemma LandingHashMatchIff(href: string, id: string)
    ensures MatchLandingHash(href) == Some(id) <==>
            IsSectionId(id) && (href == "/#" + id || href == "/index.html#" + id)
  {
    if href == "/#" + id {
      assert href[..2] == "/#" && href[2..] == id;
    }
    if href == "/index.html#" + id {
      assert href[..12] == "/index.html#" && href[12..] == id;
      assert href[1] == 'i';
    }
    if StartsWith(href, "/#") {
      assert href == "/#" + href[2..];
    }
    if StartsWith(href, "/index.html#") {
      assert href == "/index.html#" + href[12..];
    }
  }

  /** A dot is not a section-id character, so `/#a.b` is not a landing-hash href. */
  lemma DottedHashDoesNotMatch()
    ensures MatchLandingHash("/#a.b") == None
  {
    var h := "/#a.b";
    assert h[2..] == "a.b";
    assert h[2..][1] == '.';
    assert h[1] == '#';
  }

  // ------------------------------------------------------------ the navigator

  /** The navigator's observable state: whether the body carries the
      `page-leaving` class, the navigations scheduled on the timer (in the
      order they fire: all use the same delay), and every assignment made to
      the window's location so far. */
  datatype NavState = NavState(leaving: bool, timers: seq<string>, visits: seq<string>)

  /** The two states of the navigator: idle, or leaving with navigations
      pending. A scheduled navigation always comes with the leaving class, and
      with reduced motion the navigator never leaves that way. */
  predicate NavInvariant(s: NavState, reducedMotion: bool) {
    (s.timers != [] ==> s.leaving) && (reducedMotion ==> !s.leaving && s.timers == [])
  }

  /** One call of the closure returned by createPageTransitionNavigator. */
  function NavigateStep(s: NavState, reducedMotion: bool, url: string): NavState {
    if url == "" then s
    else if reducedMotion then s.(visits := s.visits + [url])
    else s.(leaving := true, timers := s.timers + [url])
  }

  /** The earliest scheduled navigation fires. */
  function TimerStep(s: NavState): NavState
    requires s.timers != []
  {
    s.(timers := s.timers[1..], visits := s.visits + [s.timers[0]])
  }

  /** Every navigation already performed or still scheduled, in the order it takes effect. */
  function Committed(s: NavState): seq<string> {
    s.visits + s.timers
  }

  lemma NavigateKeepsInvariant(s: NavState, reducedMotion: bool, url: string)
    requires NavInvariant(s, reducedMotion)
    ensures NavInvariant(NavigateStep(s, reducedMotion, url), reducedMotion)
  {
  }

  lemma TimerKeepsInvariant(s: NavState, reducedMotion: bool)
    requires NavInvariant(s, reducedMotion) && s.timers != []
    ensures NavInvariant(TimerStep(s), reducedMotion)
  {
  }

  /** A call with a non-empty url commits exactly that url after everything
      already committed; an empty url changes nothing. A second click during
      the transition therefore adds a second navigation rather than replacing
      the first. */
  lemma NavigateCommitsUrl(s: NavState, reducedMotion: bool, url: string)
    requires NavInvariant(s, reducedMotion)
    ensures url == "" ==> NavigateStep(s, reducedMotion, url) == s
    ensures url != "" ==> Committed(NavigateStep(s, reducedMotion, url)) == Committed(s) + [url]
  {
    if url != "" && !reducedMotion {
      assert s.visits + (s.timers + [url]) == s.visits + s.timers + [url];
    }
  }

  /** Firing a timer performs a navigation that was already committed, in order. */
  lemma TimerPreservesCommitted(s: NavState)
    requires s.timers != []
    ensures Committed(TimerStep(s)) == Committed(s)
  {
    assert s.visits + [s.timers[0]] + s.timers[1..] == s.visits + s.timers;
  }

  /** With reduced motion a navigation happens at once and the class is
      untouched; otherwise the class is added and nothing happens until the
      timer fires. */
  lemma NavigateTiming(s: NavState, reducedMotion: bool, url: string)
    requires url != ""
    ensures reducedMotion ==>
      NavigateStep(s, reducedMotion, url).visits == s.visits + [url] &&
      NavigateStep(s, reducedMotion, url).leaving == s.leaving &&
      NavigateStep(s, reducedMotion, url).timers == s.timers
    ensures !reducedMotion ==>
      NavigateStep(s, reducedMotion, url).leaving &&
      NavigateStep(s, reducedMotion, url).visits == s.visits &&
      NavigateStep(s, reducedMotion, url).timers == s.timers + [url]
  {
  }

  /** The navigator of createPageTransitionNavigator; reducedMotion is the
      media-query result captured when it is created. */
  class Navigator {
    const reducedMotion: bool
    /** the timer delay; the model keeps the order of timers, not their timing */
    const delayMs: int
    var leaving: bool
    var timers: seq<string>
    var visits: seq<string>

    function State(): NavState
      reads this
    {
      NavState(leaving, timers, visits)
    }

    ghost predicate Valid()
      reads this
    {
      NavInvariant(State(), reducedMotion)
    }

    constructor (reducedMotion: bool, delayMs: int := DEFAULT_DELAY_MS)
      ensures Valid() && State() == NavState(false, [], [])
      ensures this.reducedMotion == reducedMotion && this.delayMs == delayMs
    {
      this.reducedMotion := reducedMotion;
      this.delayMs := delayMs;
      leaving := false;
      timers := [];
      visits := [];
    }

    method Navigate(url: string)
      requires Valid()
      modifies this
      ensures Valid()
      ensures State() == NavigateStep(old(State()), reducedMotion, url)
    {
      if url == "" {
        return;
      }
      if reducedMotion {
        visits := visits + [url];
        return;
      }
      leaving := true;
      timers := timers + [url];
    }

    /** The timer callback: the earliest pending navigation takes place. */
    method FireTimer()
      requires Valid() && timers != []
      modifies this
      ensures Valid()
      ensures State() == TimerStep(old(State()))
    {
      visits := visits + [timers[0]];
      timers := timers[1..];
    }
  }

  // ------------------------------------------------------------ the hand-off

  /** setPendingLandingScrollTarget: true exactly when the write went
      through; a write replaces any earlier target, and a failed write leaves
      storage as it was. */
  method SetPendingLandingScrollTarget(store: SessionStorage, target: string) returns (ok: bool)
    modifies store
    ensures ok <==> store.accessible && store.writable
    ensures store.items == if ok then old(store.items)[LANDING_SCROLL_STORAGE_KEY := target] else old(store.items)
  {
    if store.accessible && store.writable {
      store.items := store.items[LANDING_SCROLL_STORAGE_KEY := target];
      ok := true;
    } else {
      ok := false;
    }
  }

  /** Where a landing-hash click goes: the bare root when the target was
      stored, and the root with the target as fragment when it was not. */
  function LandingUrl(stored: bool, target: string): string {
    if stored then "/" else "/#" + target
  }

  /** The fallback URL is itself a landing-hash href carrying the same
      target, so the section is not lost when storage refuses the write. */
  lemma FallbackUrlKeepsTarget(target: string)
    requires IsSectionId(target)
    ensures LandingUrl(true, target) == "/"
    ensures MatchLandingHash(LandingUrl(false, target)) == Some(target)
  {
    LandingHashMatchIff(LandingUrl(false, target), target);
  }

  // ------------------------------------------------------------ click routing

  /** The parts of a click event the listeners consult. */
  datatype Click = Click(defaultPrevented: bool, button: int, metaKey: bool, ctrlKey: bool, shiftKey: bool, altKey: bool)

  /** The nearest anchor around a click target: its `href` attribute (None
      when absent), the absolute URL the browser resolves it to, its
      `target` attribute and whether it has a `download` attribute. */
  datatype Anchor = Anchor(href: Option<string>, url: string, target: string, download: bool)

  /** A primary-button click, not yet handled, with no modifier key. */
  predicate IsPlainPrimaryClick(ev: Click) {
    !ev.defaultPrevented && ev.button == 0 && !ev.metaKey && !ev.ctrlKey && !ev.shiftKey && !ev.altKey
  }

  /** Links the transition never takes over: mail, phone and script URLs,
      links opening a new browsing context, and downloads. */
  predicate IsExcludedLink(a: Anchor, href: string) {
    StartsWith(href, "mailto:") || StartsWith(href, "tel:") || StartsWith(href, "javascript:")
    || a.target == "_blank" || a.download
  }

  /** What the listener of setupPageTransitionNavigation does with a click:
      leave it to the browser, store a section target and go to the landing
      page, or cancel the click and navigate with the transition. */
  datatype ClickRoute = PassThrough | LandingJump(target: string) | TransitionTo(url: string)

  function RouteClick(ev: Click, link: Option<Anchor>): ClickRoute {
    if link.None? || !IsPlainPrimaryClick(ev) then PassThrough
    else match link.value.href
      case None => PassThrough
      case Some(href) =>
        if href == "" || href == "#" || StartsWith(href, "#") then PassThrough
        else match MatchLandingHash(href)
          case Some(target) => LandingJump(target)
          case None =>
            if IsExcludedLink(link.value, href) then PassThrough else TransitionTo(link.value.url)
  }

  /** A click that is already handled, not with the primary button, or with a
      modifier key is never taken over. */
  lemma RouteClickPassesModifiedClicks(ev: Click, link: Option<Anchor>)
    requires !IsPlainPrimaryClick(ev)
    ensures RouteClick(ev, link) == PassThrough
  {
  }

  /** Missing, empty and fragment-only hrefs are left to the browser. */
  lemma RouteClickPassesFragments(ev: Click, a: Anchor)
    requires a.href.None? || a.href.value == "" || StartsWith(a.href.value, "#")
    ensures RouteClick(ev, Some(a)) == PassThrough
  {
  }

  /** A plain click on a landing-hash link is a landing jump to its id, and
      nothing else is: the pattern is checked before the exclusions, so a
      landing-hash link is taken over even with target=_blank or download. */
  lemma LandingJumpIff(ev: Click, a: Anchor, target: string)
    ensures RouteClick(ev, Some(a)) == LandingJump(target) <==>
      IsPlainPrimaryClick(ev) && a.href.Some? && IsSectionId(target) &&
      (a.href.value == "/#" + target || a.href.value == "/index.html#" + target)
  {
    if a.href.Some? {
      var href := a.href.value;
      LandingHashMatchIff(href, target);
      if href == "/#" + target || href == "/index.html#" + target {
        assert href[0] == '/';
        assert !StartsWith(href, "#");
      }
    }
  }

  /** Every other plain click on a link that is neither fragment-only nor
      excluded is cancelled and sent through the transition to the link's
      resolved URL. */
  lemma TransitionIff(ev: Click, a: Anchor, url: string)
    ensures RouteClick(ev, Some(a)) == TransitionTo(url) <==>
      IsPlainPrimaryClick(ev) && a.href.Some? && a.href.value != "" && !StartsWith(a.href.value, "#") &&
      MatchLandingHash(a.href.value).None? && !IsExcludedLink(a, a.href.value) && url == a.url
  {
    if a.href.Some? && a.href.value == "#" {
      assert StartsWith(a.href.value, "#");
    }
  }

  /** An href that only looks like a landing-hash link falls through to the
      ordinary transition. */
  lemma DottedLandingHrefTransitions(ev: Click, a: Anchor)
    requires IsPlainPrimaryClick(ev) && a.href == Some("/#a.b") && a.target != "_blank" && !a.download
    ensures RouteClick(ev, Some(a)) == TransitionTo(a.url)
  {
    DottedHashDoesNotMatch();
    var h := "/#a.b";
    assert h[0] == '/' && h[..1] != "#";
    assert !StartsWith(h, "mailto:") && !StartsWith(h, "tel:") && !StartsWith(h, "javascript:");
  }

  /** The document click listener of setupPageTransitionNavigation, with the
      navigator it creates and the session storage it writes. `prevented`
      tells whether the click's default action was cancelled. */
  method HandlePageClick(nav: Navigator, store: SessionStorage, ev: Click, link: Option<Anchor>)
    returns (prevented: bool)
    requires nav.Valid()
    modifies nav, store
    ensures nav.Valid()
    ensures prevented <==> !RouteClick(ev, link).PassThrough?
    ensures RouteClick(ev, link).PassThrough? ==>
      nav.State() == old(nav.State()) && store.items == old(store.items)
    ensures RouteClick(ev, link).TransitionTo? ==>
      nav.State() == NavigateStep(old(nav.State()), nav.reducedMotion, RouteClick(ev, link).url) &&
      store.items == old(store.items)
    ensures RouteClick(ev, link).LandingJump? ==>
      var target := RouteClick(ev, link).target;
      var stored := store.accessible && store.writable;
      store.items == (if stored then old(store.items)[LANDING_SCROLL_STORAGE_KEY := target] else old(store.items)) &&
      nav.State() == NavigateStep(old(nav.State()), nav.reducedMotion, LandingUrl(stored, target))
  {
    var route := RouteClick(ev, link);
    match route
    case PassThrough =>
      prevented := false;
    case LandingJump(target) =>
      prevented := true;
      var didStore := SetPendingLandingScrollTarget(store, target);
      nav.Navigate(LandingUrl(didStore, target));
    case TransitionTo(url) =>
      prevented := true;
      nav.Navigate(url);
  }
}
