# MediSure landing site: navigation, scrolling, price list and story bar

A Dafny model of the decision logic in the MediSure marketing site's
browser scripts, with proofs of what that logic promises. The scripts are
DOM glue; the model keeps the choices they make and the state they change,
and takes everything the browser supplies as inputs:

- **Cross-page navigation** (`src/ts/shared.ts`, module `Shared` in
  `shared.dfy`): the landing-hash href pattern (`/#id`, `/index.html#id`),
  the page-transition navigator (reduced motion navigates at once, otherwise
  the `page-leaving` class is set and the navigation waits on a timer), the
  hand-off of a section target through session storage, and the document
  click listener that routes each anchor click to the browser, to a landing
  jump or to a transition.
- **Landing page** (`src/ts/index.ts`, module `Landing` in `landing.dfy`):
  the canonical path rewrite, normalisation of landing-hash hrefs, the
  section lookup guard, the header-offset scroll arithmetic, the read-once
  pending target, the landing page's own anchor listener, and the priority
  of the three sources of the initial scroll (stored target, `scroll` query
  parameter, location hash). A `Page` class holds the location, the app
  container's scroll position and the scroll calls made.
- **E-laboratory price list** (`src/ts/e-laboratory.ts`, module
  `Laboratory` in `laboratory.dfy`): price parsing, the search and
  price-range filter, row and cell rendering, the placeholder row and the
  count label. A `PriceList` class holds the table body and the label text.
- **About page story bar** (`src/ts/about.ts`, module `About` in
  `about.dfy`): the hide/show hysteresis with its dead band and the
  `isTicking` animation-frame throttle, as a `StoryNav` class.

`base.dfy` (module `Base`) holds the string operations the scripts rely on
(`startsWith`, `includes`, `trim`, ASCII `toLowerCase`, decimal rendering of
counts) and `session.dfy` (module `Session`) models session storage as a map
with two flags: `accessible` (every call throws when false) and `writable`
(`setItem` throws when false).

Every state-changing operation is a method proved against a specification
function of the state (`Navigate` against `NavigateStep`, `OnScroll` against
`ScrollStep`, `ApplyFilters` against `Filtered`/`BodyFor`/`CountLabel`), and
the properties are proved about those functions. Timers and
animation-frame callbacks are pending-action queues (`timers`, `frames`) run
in the order they were scheduled; a method such as `FireTimer` or
`RunFrame` runs the oldest. A queued landing-page callback either carries
the hash it will scroll to or reads the location's hash when it runs, as
the callbacks of `src/ts/index.ts` do.

A few facts about the code that shape the model:
- Section lookup passes the fragment straight to `document.querySelector`
  (`src/ts/index.ts:40-50`).
- `scrollToAppSectionWithSettle` performs a single scroll
  (`src/ts/index.ts:69-71`).
- The header offset is the constant 80 pixels (`src/ts/index.ts:6`).
- No link is singled out to skip the transition. A plain primary click on
  an href that is not fragment-only, not a landing-hash href and not
  excluded goes through the navigator with the link's resolved URL
  (`src/ts/shared.ts:72-83`; `Shared.TransitionIff`).

## Model

| member | source | states |
|---|---|---|
| Base.Contains | src/ts/e-laboratory.ts:85 | `includes`: a left-to-right scan for the query in the name, the empty query found everywhere (characterised by ContainsIff) |
| Base.ContainsIff | src/ts/e-laboratory.ts:85 | the `includes` scan finds the query exactly when it occurs at some index of the name |
| Base.TrimStart | src/ts/e-laboratory.ts:81 | the result is the longest suffix not starting with ECMAScript whitespace; everything dropped is whitespace |
| Base.TrimEnd | src/ts/e-laboratory.ts:81 | the result is the longest prefix not ending with whitespace; everything dropped is whitespace |
| Base.ToLower | src/ts/e-laboratory.ts:69 | `toLowerCase` on each character (also applied to the query at line 81), ASCII letters only (see the "## Left out" line) |
| Base.Trim | src/ts/e-laboratory.ts:81 | `trim`: TrimEnd after TrimStart, whose contracts fix what is removed at each end |
| Base.TrimLowerCommute | src/ts/e-laboratory.ts:81 | trimming and lower-casing the search text can be done in either order |
| Base.NatToString | src/ts/e-laboratory.ts:108-110 | a rendered count is a non-empty run of decimal digits |
| Base.NatToStringRoundTrip | src/ts/e-laboratory.ts:108-110 | reading the rendered digits back gives the count |
| Shared.MatchLandingHash | src/ts/shared.ts:2 | a captured id is a non-empty run of `[A-Za-z0-9_-]` strictly shorter than the href |
| Shared.LandingHashMatchIff | src/ts/shared.ts:62-65 | an href matches with capture `id` iff it is exactly `/#id` or `/index.html#id` with `id` a section id |
| Shared.NavigateStep | src/ts/shared.ts:7-21 | the navigator's step: an empty url changes nothing; reduced motion appends the url to the navigations made; otherwise the leaving class is set and the url is appended to the pending timers (see NavigateTiming, NavigateCommitsUrl) |
| Shared.TimerStep | src/ts/shared.ts:18-20 | the oldest pending timer fires and its url is navigated to (see TimerPreservesCommitted) |
| Shared.DottedHashDoesNotMatch | src/ts/shared.ts:2 | `/#a.b` does not match the landing-hash pattern |
| Shared.NavigateKeepsInvariant | src/ts/shared.ts:7-21 | a navigation keeps "a pending navigation implies the leaving class; reduced motion never sets the class or a timer" |
| Shared.TimerKeepsInvariant | src/ts/shared.ts:18-20 | firing the timer keeps the same invariant |
| Shared.NavigateCommitsUrl | src/ts/shared.ts:7-21 | an empty url changes nothing; any other url is committed exactly once, after all earlier ones |
| Shared.TimerPreservesCommitted | src/ts/shared.ts:18-20 | the timer performs the oldest committed navigation and loses none |
| Shared.NavigateTiming | src/ts/shared.ts:12-20 | with reduced motion the navigation happens at once and the class is untouched; otherwise the class is set and the navigation is only scheduled |
| Shared.Navigator.constructor | src/ts/shared.ts:4-5 | a new navigator is idle, with the reduced-motion preference captured once and the delay defaulting to 220 ms |
| Shared.Navigator.Navigate | src/ts/shared.ts:7-21 | the new state is the navigation step of the old one, and the invariant is kept |
| Shared.Navigator.FireTimer | src/ts/shared.ts:18-20 | the oldest scheduled url is navigated to, and the invariant is kept |
| Shared.SetPendingLandingScrollTarget | src/ts/shared.ts:24-31 | returns true iff the write succeeds; on success the key holds exactly the target (last write wins); on failure storage is unchanged |
| Shared.LandingUrl | src/ts/shared.ts:68 | `/` when the target was stored, `/#` + target otherwise (see FallbackUrlKeepsTarget) |
| Shared.FallbackUrlKeepsTarget | src/ts/shared.ts:66-68 | the stored case goes to `/`; the fallback `/#target` is itself a landing-hash href carrying the same target |
| Shared.RouteClick | src/ts/shared.ts:36-84 | the click listener's decision: pass-through, landing jump with the captured id, or transition to the link's resolved URL (see LandingJumpIff, TransitionIff) |
| Shared.RouteClickPassesModifiedClicks | src/ts/shared.ts:46-55 | handled, non-primary and modified clicks are left to the browser |
| Shared.RouteClickPassesFragments | src/ts/shared.ts:57-60 | a missing or empty href and any href starting with `#` are left to the browser |
| Shared.LandingJumpIff | src/ts/shared.ts:62-70 | a click is a landing jump to `id` iff it is a plain primary click on `/#id` or `/index.html#id`, whatever the link's target or download attribute |
| Shared.TransitionIff | src/ts/shared.ts:72-83 | a click goes through the transition to the link's resolved URL iff it is plain, its href is not fragment-only, not a landing-hash href and not excluded |
| Shared.DottedLandingHrefTransitions | src/ts/shared.ts:72-83 | `/#a.b` falls through to the ordinary transition |
| Shared.HandlePageClick | src/ts/shared.ts:36-84 | the default is prevented iff the route is not pass-through; pass-through changes nothing; a transition steps the navigator; a landing jump writes storage as `SetPendingLandingScrollTarget` does and navigates to `/` or `/#target` accordingly |
| Landing.CanonicalLocation | src/ts/index.ts:11-18 | `/index.html` becomes `/` with the same query and fragment; any other location is kept (see CanonicalKeepsQueryAndFragment) |
| Landing.CanonicalKeepsQueryAndFragment | src/ts/index.ts:11-18 | only `/index.html` is rewritten, to `/` plus the unchanged query and fragment; rewriting is idempotent |
| Landing.Page.CanonicalizeLandingPath | src/ts/index.ts:11-18 | the location becomes its canonical form |
| Landing.NormalizeLandingHashHref | src/ts/index.ts:73-83 | drops `/index.html` or `/` before a `#`, and keeps every other href (see the Normalize lemmas) |
| Landing.NormalizeStripsLandingPrefix | src/ts/index.ts:73-80 | `/#x` and `/index.html#x` both normalise to `#x` |
| Landing.NormalizeLeavesOtherHrefs | src/ts/index.ts:82 | an href with neither prefix is returned unchanged |
| Landing.NormalizeIsFragmentIff | src/ts/index.ts:73-83 | the normalised href starts with `#` iff the href is one of the three fragment forms |
| Landing.NormalizeIdempotent | src/ts/index.ts:73-83 | normalising twice is normalising once |
| Landing.GetTargetByHash | src/ts/index.ts:40-50 | no target for an empty hash or a bare `#`; otherwise a target exactly when the selector lookup finds one, and then that element |
| Landing.ScrollDestination | src/ts/index.ts:59-64 | `max(0, scrollTop + (targetTop - containerTop) - 80)` (see ScrollDestinationPlacesTarget) |
| Landing.ScrollDestinationPlacesTarget | src/ts/index.ts:59-65 | the destination is never negative; when positive the section sits exactly 80 pixels below the container's top; when 0 it could not be brought that far |
| Landing.ScrollDestinationIgnoresCurrentScroll | src/ts/index.ts:59-61 | the destination depends only on the section's position in the content, not on the current scroll |
| Landing.Page.DestinationIsStable | src/ts/index.ts:52-67 | scrolling to a section gives the same non-negative position from any starting scroll |
| Landing.Page.ScrollToAppSection | src/ts/index.ts:52-67 | with a target and a container the container scrolls to the destination (smooth unless reduced motion); otherwise nothing changes |
| Landing.Page.RunFrame | src/ts/index.ts:187-199 | the oldest queued callback is removed and scrolls to its fixed hash, or to the location's hash at the time it runs |
| Landing.PendingRead | src/ts/index.ts:85-95 | the stored value under `landingScrollTarget`, or nothing when the key is absent or storage throws |
| Landing.AfterPendingRead | src/ts/index.ts:85-95 | storage with the key removed when a non-empty value was read, unchanged otherwise (see PendingReadIsReadOnce) |
| Landing.PendingReadIsReadOnce | src/ts/index.ts:85-95 | a returned target is gone for the next read, and no other key is touched |
| Landing.GetPendingLandingScroll | src/ts/index.ts:85-95 | returns the stored value, or nothing when the key is absent or storage throws; the key is removed only when a non-empty value was read |
| Landing.HandOffThroughStorage | src/ts/index.ts:85-95 | a target written on another page is read back once on the landing page and the key is then gone |
| Landing.FrameHash | src/ts/index.ts:187-199 | a callback with a fixed hash scrolls to it; the hash-branch callback scrolls to the location's hash when it runs |
| Landing.InitialScrollFrame | src/ts/index.ts:181-202 | the callback set-up queues as written: `#` + the stored target, else `#` + the `scroll` parameter, fixed when queued; else, with a hash, a callback that reads the hash when it runs; else nothing (see InitialScrollPriority, HashOnlyLoadScrollsNowhere) |
| Landing.InitialScrollTarget | src/ts/index.ts:181-202 | the intended target, with the hash read at set-up: the corrected definition of the finding below (see InitialScrollPriority, HandOffReachesSection) |
| Landing.InitialScrollPriority | src/ts/index.ts:181-202 | at most one source applies, in the order stored target, `scroll` parameter, hash, both for the queued callback and for the intended target; each is absent exactly when all three sources are empty |
| Landing.InitialFrameFixesStoredAndQueryTargets | src/ts/index.ts:186-196 | with a stored target or a `scroll` parameter, the queued callback scrolls to the intended target whatever the location is when it runs |
| Landing.HashOnlyLoadScrollsNowhere | src/ts/index.ts:198-201 | as written, with only a hash, the queued callback runs at `/`, reads an empty hash and selects no section, although the intended target is the hash |
| Landing.FallbackHandOffScrollsNowhere | src/ts/shared.ts:66-68 | as written, when storage refuses the target the landing page opens at `/#target` and its queued callback selects no section |
| Landing.HandOffReachesSection | src/ts/shared.ts:66-68 | under the intended definition, whether or not storage takes the target, the landing page opened by a landing jump scrolls to `#target` |
| Landing.StaleTargetWinsOverFallback | src/ts/index.ts:186-190 | when an older target is still stored and the new write fails, the older target is scrolled to instead of the fragment |
| Landing.Page.SetupInitialScroll | src/ts/index.ts:181-202 | the pending read is consumed, the `InitialScrollFrame` callback is queued for the next frame and the URL becomes `/`; with no source nothing is queued or rewritten |
| Landing.Page.OnHashChange | src/ts/index.ts:204-214 | a non-empty hash, captured before scheduling, is queued for the next frame and the URL becomes `/`; an empty one does nothing |
| Landing.ShouldIgnoreAnchorForTransition | src/ts/index.ts:97-120 | true iff the click is handled, non-primary or modified, or the link is `mailto:`, `tel:`, `javascript:`, `_blank` or a download |
| Landing.RouteAnchorClick | src/ts/index.ts:137-179 | the landing listener's decision: unhandled, in-page scroll to the normalised fragment, scroll to the link's `scroll` parameter, or transition to the resolved URL (see FragmentLinksStayOnPage, RoutersAgreeOnOtherLinks) |
| Landing.IgnoredAnchorsAreUnhandled | src/ts/index.ts:97-120 | clicks that `shouldIgnoreAnchorForTransition` rejects are left to the browser |
| Landing.FragmentLinksScrollIff | src/ts/index.ts:157-164 | a non-empty fragment href other than `#` in any of the three forms is scrolled to in-page exactly when the click is not ignored and the href does not normalise to `#` |
| Landing.FragmentLinksStayOnPage | src/ts/index.ts:157-164 | `#x`, `/#x` and `/index.html#x` are never sent through the transition: they are scrolled to in-page as the normalised fragment, or left to the browser (a normalised bare `#`, or a click the listener ignores) |
| Landing.LandingHashNeverTransitions | src/ts/index.ts:157 | every href the landing-hash pattern matches is one of the fragment forms |
| Landing.RoutersAgreeOnOtherLinks | src/ts/index.ts:176-177 | for links that are neither fragments nor `scroll` query links, the landing page's listener transitions (or passes) exactly when the other pages' listener does |
| Landing.BlankLandingLinkDiffers | src/ts/index.ts:109-117 | a `/#id` link with `target=_blank` is a landing jump for the other pages' listener but left alone by the landing page's |
| Landing.Page.HandleAnchorClick | src/ts/index.ts:137-179 | the default is prevented iff the route is handled; each route changes exactly its part of the state: a scroll, a queued frame with the URL reset, or a navigator step |
| Landing.Page.Load | src/ts/index.ts:216-220 | the path is canonicalised first and the initial-scroll callback is chosen from the canonical location |
| Laboratory.Sanitize | src/ts/e-laboratory.ts:15 | the cleaned price has only digits and dots and is no longer than the input; SanitizeKeepsExactlyPriceChars, SanitizeKeepsPriceChars and SanitizeOneChar fix which characters it keeps and where |
| Laboratory.SanitizeKeepsPriceChars | src/ts/e-laboratory.ts:15 | an input of only digits and dots is left as it is |
| Laboratory.SanitizeKeepsExactlyPriceChars | src/ts/e-laboratory.ts:15 | a character occurs in the cleaned price exactly when it occurs in the input and is a digit or a dot |
| Laboratory.SanitizeOneChar | src/ts/e-laboratory.ts:15 | every character of the input contributes itself, in place, when it is a digit or dot, and nothing otherwise |
| Laboratory.ParseFloat | src/ts/e-laboratory.ts:15 | a parsed value is never negative |
| Laboratory.ParsePrice | src/ts/e-laboratory.ts:14-17 | the price is never negative |
| Laboratory.ParsePriceSeesOnlyPriceChars | src/ts/e-laboratory.ts:15 | cleaning is idempotent: a price parses like its own cleaned form |
| Laboratory.ParsePriceIgnoresNonPriceChar | src/ts/e-laboratory.ts:15 | any character other than a digit or a dot, anywhere in the price, does not change it |
| Laboratory.ParsePriceWithoutDigits | src/ts/e-laboratory.ts:16 | an input without a digit gives 0 |
| Laboratory.ParsePriceOfWholeNumber | src/ts/e-laboratory.ts:14-17 | a whole number written in decimal parses to itself |
| Laboratory.ParsePriceWithSymbols | src/ts/e-laboratory.ts:14-17 | a peso sign before the digits does not change the price |
| Laboratory.InRange | src/ts/e-laboratory.ts:88-94 | `0-999` is `<= 999`, `1000-2999` is `1000..2999` inclusive, `3000+` is `>= 3000`, any other range accepts every price |
| Laboratory.ParsePriceOfDecimal | src/ts/e-laboratory.ts:14-17 | a whole number followed by a dot and any digits parses to the whole number plus those digits over the matching power of ten |
| Laboratory.ParsePriceIgnoresComma | src/ts/e-laboratory.ts:15 | a comma anywhere in the price does not change it |
| Laboratory.ParsePriceWithThousands | src/ts/e-laboratory.ts:14-17 | a price like `1,250.00` parses to the decimal number whose whole part is both digit groups read as one |
| Laboratory.WholePriceInOneBucket | src/ts/e-laboratory.ts:88-94 | every whole price lies in exactly one of the three inclusive buckets |
| Laboratory.FractionalPriceBetweenBuckets | src/ts/e-laboratory.ts:88-94 | prices such as 999.50 and 2999.50 fall in no bucket |
| Laboratory.PricedRows | src/ts/e-laboratory.ts:66-71 | each source row paired with its index, lower-cased service name and parsed price, in source order (used by FilteredIsOrderedSubsequence, ShownRowsMatch and PriceList.constructor) |
| Laboratory.SearchQuery | src/ts/e-laboratory.ts:81 | the search text trimmed and lower-cased |
| Laboratory.RangeValue | src/ts/e-laboratory.ts:82 | the select's value, with an empty value read as `all` |
| Laboratory.Keeps | src/ts/e-laboratory.ts:85-96 | a row passes when the query is empty or its lower-cased name contains it, and its price is in range |
| Laboratory.Filtered | src/ts/e-laboratory.ts:84-97 | the rows that pass, in source order (see FilteredMembers, FilteredKeepsOrder) |
| Laboratory.SearchIgnoresCase | src/ts/e-laboratory.ts:81 | search texts differing only in ASCII letter case give the same query |
| Laboratory.FilteredMembers | src/ts/e-laboratory.ts:84-97 | a row is shown iff it is in the list and passes both tests; never more rows than the list |
| Laboratory.FilteredKeepsOrder | src/ts/e-laboratory.ts:84-97 | filtering keeps rows in increasing source position |
| Laboratory.FilteredIsOrderedSubsequence | src/ts/e-laboratory.ts:102 | each shown row is the source row at its recorded index and the indices increase, so sorting by index changes nothing |
| Laboratory.ShownRowsMatch | src/ts/e-laboratory.ts:81-97 | a row is shown iff its lower-cased name contains the trimmed lower-cased query (or the query is empty) and its price is in the selected range (empty select counts as `all`) |
| Laboratory.FilteredEverything | src/ts/e-laboratory.ts:85-97 | an empty query with a non-bucket range shows the whole list |
| Laboratory.ReplaceFirst | src/ts/e-laboratory.ts:24 | string `replace` with a string pattern: the first occurrence is replaced (see ReplaceFirstAt) |
| Laboratory.ReplaceFirstAt | src/ts/e-laboratory.ts:24 | the first occurrence of the placeholder is replaced where it stands |
| Laboratory.CellClassesFilled | src/ts/e-laboratory.ts:24-28 | both cell classes are their templates with `%PADDING%` replaced by the padding class |
| Laboratory.CreateTableRow | src/ts/e-laboratory.ts:19-33 | a row with the row class, a service cell and a price cell whose text is the peso sign then the raw price (see TableRowShowsItem) |
| Laboratory.TableRowShowsItem | src/ts/e-laboratory.ts:19-33 | a row has the row class and two cells: the service name, and the peso sign before the raw price, which parses to the same price |
| Laboratory.BuildRows | src/ts/e-laboratory.ts:35-45 | one rendered row per item, in order |
| Laboratory.RenderHomeServices | src/ts/e-laboratory.ts:47-54 | the home-services table renders every row with `py-4` padding |
| Laboratory.BodyFor | src/ts/e-laboratory.ts:99-104 | the placeholder row when nothing is shown, else the `py-3` rows of the shown services (see BodyShowsResult) |
| Laboratory.BodyShowsResult | src/ts/e-laboratory.ts:99-104 | an empty result renders exactly the placeholder row; otherwise one row per shown service, in order |
| Laboratory.CountLabel | src/ts/e-laboratory.ts:106-112 | `Showing all N services` for an empty query and range `all`, else `Showing k of N services` |
| Laboratory.CountLabelIsAccurate | src/ts/e-laboratory.ts:106-112 | the shown count never exceeds the total, and the "all" wording only appears when every row is shown |
| Laboratory.PriceList.constructor | src/ts/e-laboratory.ts:66-117 | the rows are indexed, lower-cased and priced once, and the first filter pass is applied |
| Laboratory.PriceList.ApplyFilters | src/ts/e-laboratory.ts:80-113 | the body is the rendering of the filtered rows (or the placeholder) and the label, when present, is the count label |
| About.NavHeight | src/ts/about.ts:12 | the bar height is offsetHeight when non-zero, else the bounding-rect height |
| About.NextHidden | src/ts/about.ts:13-21 | a visible bar hides at `titleTop <= navHeight + 4`, a hidden bar shows at `titleTop > navHeight + 28`, otherwise the state is kept (see the lemmas below) |
| About.NextHiddenFlipsIff | src/ts/about.ts:17-21 | an update flips the state iff a visible bar has the title at or above `navHeight + 4` or a hidden bar has it below `navHeight + 28` |
| About.DeadBandKeepsState | src/ts/about.ts:13-21 | between `navHeight + 4` and `navHeight + 28` the state is unchanged whichever it is |
| About.PositionDecidesOutsideDeadBand | src/ts/about.ts:13-20 | at or above the hide line the bar ends hidden, below the show line it ends visible |
| About.UpdateIsStable | src/ts/about.ts:17-21 | an update changes the state at most once: repeating it at the same position changes nothing |
| About.HideThenShowNeedsTravel | src/ts/about.ts:13-14 | a hide followed by a show needs the title to move down by more than 24 pixels |
| About.RunInDeadBandKeepsState | src/ts/about.ts:17-21 | any number of updates inside the dead band leave the state as it was |
| About.RunEndsByLastPosition | src/ts/about.ts:17-21 | after a run ending outside the dead band only the last position decides the state |
| About.UpdateStep | src/ts/about.ts:10-22 | one visibility update: the hidden state becomes `NextHidden` of the old one at the measured bar height |
| About.ScrollStep | src/ts/about.ts:27-36 | nothing while ticking; otherwise the flag is set and one throttled update is scheduled |
| About.FrameStep | src/ts/about.ts:33-36 | the oldest frame runs an update and, if it is the throttled one, clears the flag |
| About.ScrollKeepsInvariant | src/ts/about.ts:27-36 | a scroll event keeps "at most one throttled update pending, and one exactly while ticking" |
| About.FrameKeepsInvariant | src/ts/about.ts:33-36 | running a frame keeps the same invariant |
| About.ScrollWhileTickingIsIgnored | src/ts/about.ts:28-30 | while ticking a scroll event changes nothing |
| About.ScrollBurstSchedulesOnce | src/ts/about.ts:24-36 | any burst of scroll events between frames schedules exactly one throttled update when none was pending, and none otherwise |
| About.ThrottledFrameReArms | src/ts/about.ts:32-36 | running the throttled update clears the flag, so the next scroll schedules again |
| About.StoryNav.constructor | src/ts/about.ts:24-42 | the flag starts clear and one plain update is scheduled |
| About.StoryNav.UpdateVisibility | src/ts/about.ts:10-22 | the hidden state becomes the hysteresis step of the old one |
| About.StoryNav.OnScroll | src/ts/about.ts:25-39 | the new state is the scroll step of the old one, and the throttle invariant is kept |
| About.StoryNav.RunFrame | src/ts/about.ts:33-36 | the oldest frame runs an update and clears the flag if it was the throttled one; the invariant is kept |

## Left out

- The DOM itself: element lookup, `closest("a")`, `instanceof` guards, `getBoundingClientRect`, `replaceChildren` and class lists are reduced to the values they yield (optional anchors, a lookup function, real-valued positions, sequences of rows, booleans).
- `window.matchMedia` is an input (`reducedMotion`), captured when the navigator or page is created.
- `URL` and `URLSearchParams` parsing are inputs: a link's resolved URL (`Anchor.url`) and the `scroll` parameter (`scrollParam`, `linkScrollParam`).
- Timer delays and animation-frame timing: only the order of pending actions is modelled, and the 220 ms delay is kept as a field without effect.
- Scroll animation: `scrollTo` sets the position at once; whether it was smooth is recorded per call.
- The browser's own scroll to a URL fragment when a page loads is not modelled; only the page's `scrollTo` calls are.
- Geometry is `real` arithmetic; floating-point rounding is not modelled.
- Landing.Page.Destination: a section's `getBoundingClientRect().top` is not an input but is computed as `containerTop + offset - scrollTop`, with a fixed content offset per section. This layout equation is what `ScrollDestinationIgnoresCurrentScroll` and `Page.DestinationIsStable` rest on; it excludes layout shifts between scrolls, transformed or sticky sections, and the browser clamping a scroll to its maximum.
- Laboratory.ParsePrice: models `Number.parseFloat` exactly on strings of digits and dots as a real number; double rounding and the `Number.isFinite` check for overflowing inputs are not modelled, because reals do not overflow.
- Laboratory.SearchIgnoresCase, Base.ToLower, Laboratory.SearchQuery: lower-casing covers ASCII letters only, not the full Unicode `toLowerCase`.
- Laboratory.PriceList.ApplyFilters: the sort by index is taken as the identity, which `FilteredIsOrderedSubsequence` justifies; `Array.prototype.sort` itself is not modelled.
- Session storage exceptions are the two flags `accessible` and `writable`; quota sizes are not modelled.
- The rows of `src/ts/e-laboratory-data.ts` are arbitrary sequences: src/ts/e-laboratory-data.ts is not part of this model.
- The sign-in and hero buttons (`src/ts/index.ts:122-131`) hand fixed URLs to the navigator.
- The logo's click (`src/ts/index.ts:28-38`, `src/ts/index.ts:133-134`) scrolls the app container to 0, smoothly unless motion is reduced, and does nothing without a container.
- Neither the buttons nor the logo has decision logic.
- `setupScrollReveal`, `setupInPageSmoothScroll`, `setupStandardPageNavigation`, `setupBackLinkNavigation` and `applySiteContactInfo`: their bodies are not part of this model.
- The guards that return early when an element is missing (`src/ts/e-laboratory.ts:49-51`, `src/ts/e-laboratory.ts:62-64`, `src/ts/about.ts:6-8`): the model assumes the elements exist, except the optional count label and app container, which are flags.
- The other page scripts (terms, privacy, EMR provider, Aida) only call into `src/ts/shared.ts`, and the build configuration has no behaviour to model.

## Findings

| source | as written | input that shows it | evidently intended | confidence | as-written member | corrected member |
|---|---|---|---|---|---|---|
| src/ts/index.ts:198-201 | the frame callback reads `window.location.hash` when it runs, after `history.replaceState(null, "", "/")` has emptied it, so `getTargetByHash("")` finds nothing | a load of `/#services` with no stored target and no `scroll` parameter, including the `/#target` fallback that `src/ts/shared.ts:68` produces when storage refuses the target | scroll to the hash as it was at set-up, as the other callbacks (`src/ts/index.ts:187`, `src/ts/index.ts:193`, `src/ts/index.ts:206-212`) capture theirs | not executed | Landing.FallbackHandOffScrollsNowhere | Landing.HandOffReachesSection |
