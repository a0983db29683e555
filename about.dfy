/** The about page's story navigation, src/ts/about.ts: the bar hides when the
    story title comes up under it and shows again once the title is well
    below it, with a dead band in between, and scroll events are throttled to
    one pending animation-frame update. */
module About {

  /** The gap (in CSS pixels) below the bar's bottom edge at or above which the bar hides. */
  const HIDE_MARGIN: real := 4.0
  /** The gap below the bar's bottom edge beyond which a hidden bar shows again. */
  const SHOW_MARGIN: real := 28.0

  /** What an update reads from the page: the story title's top edge in the
      viewport, and the bar's offsetHeight (a whole number of pixels, 0 when
      the bar is not laid out) and bounding-rect height. */
  datatype Layout = Layout(titleTop: real, offsetHeight: nat, rectHeight: real)

  /** The bar's height: offsetHeight, unless that is 0, in which case the
      bounding-rect height stands in. */
  function NavHeight(l: Layout): (h: real)
    ensures l.offsetHeight > 0 ==> h == l.offsetHeight as real
    ensures l.offsetHeight == 0 ==> h == l.rectHeight
  {
    if l.offsetHeight != 0 then l.offsetHeight as real else l.rectHeight
  }

  /** Whether the bar is hidden after one update, from whether it was. */
  function NextHidden(hidden: bool, titleTop: real, navHeight: real): bool {
    if !hidden && titleTop <= navHeight + HIDE_MARGIN then true
    else if hidden && titleTop > navHeight + SHOW_MARGIN then false
    else hidden
  }

  /** An update flips the state exactly when a visible bar has the title at
      or above the hide line, or a hidden bar has it below the show line. */
  lemma NextHiddenFlipsIff(hidden: bool, titleTop: real, navHeight: real)
    ensures NextHidden(hidden, titleTop, navHeight) != hidden <==>
      (!hidden && titleTop <= navHeight + 4.0) || (hidden && titleTop > navHeight + 28.0)
  {
  }

  /** Inside the dead band the state stays as it is, whichever it is. */
  lemma DeadBandKeepsState(hidden: bool, titleTop: real, navHeight: real)
    requires navHeight + 4.0 < titleTop <= navHeight + 28.0
    ensures NextHidden(hidden, titleTop, navHeight) == hidden
  {
  }

  /** Outside the dead band the position alone decides the state. */
  lemma PositionDecidesOutsideDeadBand(hidden: bool, titleTop: real, navHeight: real)
    ensures titleTop <= navHeight + 4.0 ==> NextHidden(hidden, titleTop, navHeight)
    ensures titleTop > navHeight + 28.0 ==> !NextHidden(hidden, titleTop, navHeight)
  {
  }

  /** An update changes the state at most once: a second update at the same
      position changes nothing. */
  lemma UpdateIsStable(hidden: bool, titleTop: real, navHeight: real)
    ensures var h := NextHidden(hidden, titleTop, navHeight);
      NextHidden(h, titleTop, navHeight) == h
  {
  }

  /** A hide and a later show at the same bar height need the title to have
      moved down by more than 24 pixels: the bar cannot flicker. */
  lemma HideThenShowNeedsTravel(t1: real, t2: real, navHeight: real)
    requires NextHidden(false, t1, navHeight) && !NextHidden(true, t2, navHeight)
    ensures t2 - t1 > 24.0
  {
  }

  /** The state after updates at a run of title positions, oldest first. */
  function Run(hidden: bool, tops: seq<real>, navHeight: real): bool
    decreases |tops|
  {
    if tops == [] then hidden else Run(NextHidden(hidden, tops[0], navHeight), tops[1..], navHeight)
  }

  /** Any number of updates inside the dead band leave the state as it was. */
  lemma {:induction false} RunInDeadBandKeepsState(hidden: bool, tops: seq<real>, navHeight: real)
    requires forall i :: 0 <= i < |tops| ==> navHeight + 4.0 < tops[i] <= navHeight + 28.0
    ensures Run(hidden, tops, navHeight) == hidden
    decreases |tops|
  {
    if tops != [] {
      DeadBandKeepsState(hidden, tops[0], navHeight);
      RunInDeadBandKeepsState(hidden, tops[1..], navHeight);
    }
  }

  /** After a run whose last position is outside the dead band, only that
      position decides the state; earlier positions do not matter. */
  lemma {:induction false} RunEndsByLastPosition(hidden: bool, tops: seq<real>, navHeight: real)
    requires tops != []
    ensures var last := tops[|tops| - 1];
      (last <= navHeight + 4.0 ==> Run(hidden, tops, navHeight)) &&
      (last > navHeight + 28.0 ==> !Run(hidden, tops, navHeight))
    decreases |tops|
  {
    if |tops| == 1 {
      assert tops[1..] == [];
    } else {
      assert tops[1..][|tops[1..]| - 1] == tops[|tops| - 1];
      RunEndsByLastPosition(NextHidden(hidden, tops[0], navHeight), tops[1..], navHeight);
    }
  }

  // ------------------------------------------------------------ the throttle

  /** A pending animation-frame callback: the initial plain update, or the
      throttled update a scroll event schedules, which also clears the flag. */
  datatype FrameTask = Update | ThrottledUpdate

  /** The bar's state: whether it is hidden, the isTicking flag, and the
      pending animation-frame callbacks in the order they will run. */
  datatype StoryState = StoryState(hidden: bool, ticking: bool, frames: seq<FrameTask>)

  /** How many throttled updates are pending. */
  function Pending(frames: seq<FrameTask>): nat
    decreases |frames|
  {
    if frames == [] then 0 else (if frames[0] == ThrottledUpdate then 1 else 0) + Pending(frames[1..])
  }

  lemma {:induction false} PendingAppend(frames: seq<FrameTask>, t: FrameTask)
    ensures Pending(frames + [t]) == Pending(frames) + (if t == ThrottledUpdate then 1 else 0)
    decreases |frames|
  {
    if frames == [] {
      assert [t][1..] == [];
    } else {
      assert (frames + [t])[1..] == frames[1..] + [t];
      PendingAppend(frames[1..], t);
    }
  }

  /** The throttle's invariant: at most one throttled update is pending, and
      one is pending exactly while the flag is set. */
  predicate ThrottleInvariant(s: StoryState) {
    Pending(s.frames) <= 1 && (s.ticking <==> Pending(s.frames) == 1)
  }

  /** updateStoryNavVisibility, also the resize listener. */
  function UpdateStep(s: StoryState, l: Layout): StoryState {
    s.(hidden := NextHidden(s.hidden, l.titleTop, NavHeight(l)))
  }

  /** The scroll listener. */
  function ScrollStep(s: StoryState): StoryState {
    if s.ticking then s else s.(ticking := true, frames := s.frames + [ThrottledUpdate])
  }

  /** The browser runs the oldest pending frame callback. */
  function FrameStep(s: StoryState, l: Layout): StoryState
    requires s.frames != []
  {
    var u := UpdateStep(s, l).(frames := s.frames[1..]);
    if s.frames[0] == ThrottledUpdate then u.(ticking := false) else u
  }

  lemma ScrollKeepsInvariant(s: StoryState)
    requires ThrottleInvariant(s)
    ensures ThrottleInvariant(ScrollStep(s))
  {
    PendingAppend(s.frames, ThrottledUpdate);
  }

  lemma FrameKeepsInvariant(s: StoryState, l: Layout)
    requires ThrottleInvariant(s) && s.frames != []
    ensures ThrottleInvariant(FrameStep(s, l))
  {
  }

  /** Scroll events while a throttled update is pending schedule nothing. */
  lemma ScrollWhileTickingIsIgnored(s: StoryState)
    requires s.ticking
    ensures ScrollStep(s) == s
  {
  }

  /** The state after `n` scroll events with no frame in between. */
  function Scrolls(s: StoryState, n: nat): StoryState
    decreases n
  {
    if n == 0 then s else Scrolls(ScrollStep(s), n - 1)
  }

  /** A burst of scroll events between two frames schedules exactly one
      throttled update when none was pending, and none otherwise. */
  lemma {:induction false} ScrollBurstSchedulesOnce(s: StoryState, n: nat)
    requires ThrottleInvariant(s) && n >= 1
    ensures Scrolls(s, n).ticking && Scrolls(s, n).hidden == s.hidden
    ensures Scrolls(s, n).frames == if s.ticking then s.frames else s.frames + [ThrottledUpdate]
    decreases n
  {
    var s1 := ScrollStep(s);
    ScrollKeepsInvariant(s);
    if n > 1 {
      ScrollBurstSchedulesOnce(s1, n - 1);
      assert s1.ticking;
    }
  }

  /** Running the throttled update a scroll scheduled clears the flag, so the
      next scroll event schedules again. */
  lemma ThrottledFrameReArms(s: StoryState, l: Layout)
    requires ThrottleInvariant(s) && s.frames == [ThrottledUpdate]
    ensures !FrameStep(s, l).ticking && FrameStep(s, l).frames == []
    ensures ScrollStep(FrameStep(s, l)).frames == [ThrottledUpdate]
  {
  }

  /** setupStoryNavVisibility's state: the bar's hidden class, the isTicking
      flag and the pending animation-frame callbacks. */
  class StoryNav {
    var hidden: bool
    var ticking: bool
    var frames: seq<FrameTask>

    function State(): StoryState
      reads this
    {
      StoryState(hidden, ticking, frames)
    }

    ghost predicate Valid()
      reads this
    {
      ThrottleInvariant(State())
    }

    /** Set-up: the flag starts clear and one plain update is scheduled. */
    constructor (hidden: bool)
      ensures Valid() && State() == StoryState(hidden, false, [Update])
    {
      this.hidden := hidden;
      ticking := false;
      frames := [Update];
    }

    /** updateStoryNavVisibility, run directly by the resize listener. */
    method UpdateVisibility(l: Layout)
      modifies this`hidden
      ensures State() == UpdateStep(old(State()), l)
    {
      var navHeight := NavHeight(l);
      var hideAt := navHeight + HIDE_MARGIN;
      var showAt := navHeight + SHOW_MARGIN;
      if !hidden && l.titleTop <= hideAt {
        hidden := true;
      } else if hidden && l.titleTop > showAt {
        hidden := false;
      }
    }

    /** The scroll listener. */
    method OnScroll()
      requires Valid()
      modifies this`ticking, this`frames
      ensures Valid() && State() == ScrollStep(old(State()))
    {
      ScrollKeepsInvariant(State());
      if ticking {
        return;
      }
      ticking := true;
      frames := frames + [ThrottledUpdate];
    }

    /** The browser runs the oldest pending frame callback. */
    method RunFrame(l: Layout)
      requires Valid() && frames != []
      modifies this
      ensures Valid() && State() == FrameStep(old(State()), l)
    {
      FrameKeepsInvariant(State(), l);
      var task := frames[0];
      frames := frames[1..];
      UpdateVisibility(l);
      if task == ThrottledUpdate {
        ticking := false;
      }
    }
  }
}
