/** The loader bootstrap that runs when the page's DOM is ready: it either
    skips the loading screen (a returning visitor, or no loader markup) or
    runs the progress simulator against the hero video's readiness latch,
    settles for 500 ms at 100 % and reveals the page exactly once.

    The loader is a state machine. Timers and DOM events are explicit
    events: Tick (the 50 ms interval, with its Math.random() draw),
    VideoFired (a once-only video listener), Timeout (the 5000 ms readiness
    ceiling), SettleTimer (the 500 ms settle timer) and ScrollTimer (the
    deferred scroll to the address fragment's element). An event whose timer
    or listener is not pending changes nothing, so every interleaving the
    single-threaded event loop can produce is a sequence of events. The
    transition functions below specify the `Loader` class's methods. */
module Bootstrap {
  import opened Progress

  datatype Option<T> = None | Some(value: T)

  /** The hero video element, if the page has one, with its readyState. */
  datatype Video = NoVideo | HeroVideo(readyState: int)

  /** The two readiness notifications the loader listens for, once each. */
  datatype VideoEvent = CanPlayThrough | LoadedData

  datatype Phase =
    | Loading   // the 50 ms interval is running
    | Settling  // progress reached 100, the 500 ms settle timer is pending
    | Revealed  // the loader has been faded out and the page revealed
    | Skipped   // the loader never ran

  /** What the loader container looks like. */
  datatype LoaderLook =
    | Absent    // the page has no loader container
    | Shown     // as the stylesheet draws it
    | Faded     // opacity 0, visibility hidden
    | Removed   // display none

  /** A scheduled scrollIntoView of the element the fragment names. */
  datatype Scroll = Scroll(target: string, delay: nat)

  /** The page as the handler finds it: whether the loader container and the
      progress fill exist, the hero video, the address fragment, the
      selectors that select an element, and the session storage. */
  datatype Page = Page(loaderPresent: bool, fillPresent: bool, video: Video,
                       hash: string, matching: set<string>,
                       session: map<string, string>)

  /** Everything the loader changes. `fastTicks` counts the ticks taken with
      the latch set; it is bookkeeping for the proofs, not page state. */
  datatype State = State(
    phase: Phase,
    progress: real,
    videoLoaded: bool,          // the readiness latch
    intervalActive: bool,
    timeoutPending: bool,
    listeners: set<VideoEvent>, // once-only listeners still registered
    fillWidth: Option<real>,    // the fill's style width in percent, if written
    look: LoaderLook,
    heroInitCount: nat,         // calls of initHeroAnimations
    session: map<string, string>,
    playCalls: nat,
    log: seq<string>,
    scroll: Option<Scroll>,     // a pending scroll
    scrolled: seq<string>,      // targets scrolled into view
    fastTicks: nat)

  datatype Event =
    | Tick(draw: real)
    | VideoFired(e: VideoEvent)
    | Timeout
    | SettleTimer(playRejected: bool)
    | ScrollTimer

  const VisitedKey: string := "visited"
  const VisitedValue: string := "true"
  /** HAVE_FUTURE_DATA: enough is buffered to start playing. */
  const HaveFutureData: int := 3
  const RevealScrollDelay: nat := 500
  const SkipScrollDelay: nat := 100
  const AutoPlayMessage: string := "Auto-play prevented"

  /** sessionStorage.getItem('visited') is truthy: present and non-empty. */
  predicate ReturningUser(session: map<string, string>)
  {
    VisitedKey in session && session[VisitedKey] != ""
  }

  /** The entry decision: the loader runs only when both of its elements
      exist and this session has not been marked visited. */
  predicate RunsLoader(pg: Page)
  {
    pg.loaderPresent && pg.fillPresent && !ReturningUser(pg.session)
  }

  /** No video, or one that is already sufficiently buffered. */
  predicate ReadyAtStart(video: Video)
  {
    video.NoVideo? || video.readyState >= HaveFutureData
  }

  /** The element a non-empty address fragment selects, if any. */
  function HashTarget(pg: Page): Option<string>
  {
    if pg.hash != "" && pg.hash in pg.matching then Some(pg.hash) else None
  }

  /** The scroll a path schedules: to the fragment's element, if any. */
  function PendingScroll(pg: Page, delay: nat): Option<Scroll>
  {
    match HashTarget(pg)
    case None => None
    case Some(t) => Some(Scroll(t, delay))
  }

  /** The handler's loader block: the entry decision, then either the latch,
      the listeners, the timeout and the interval, or the skip path. */
  function Start(pg: Page): (s: State)
    ensures Inv(pg, s)
    ensures s.phase == Loading <==> RunsLoader(pg)
  {
    if RunsLoader(pg) then
      var ready := ReadyAtStart(pg.video);
      State(Loading, 0.0, ready, true, true,
            if ready then {} else {CanPlayThrough, LoadedData},
            None, Shown, 0, pg.session, 0, [], None, [], 0)
    else
      State(Skipped, 0.0, false, false, false, {},
            None, if pg.loaderPresent then Removed else Absent, 1, pg.session, 0, [],
            PendingScroll(pg, SkipScrollDelay), [], 0)
  }

  /** One firing of the interval: grow by the draw, clamp, write the fill
      width, and on landing exactly on 100 clear the interval and start the
      settle timer. */
  function OnTick(s: State, r: real): (t: State)
    requires Draw(r)
    // a cleared interval does nothing
    ensures !s.intervalActive ==> t == s
    ensures s.intervalActive ==> t.progress <= Full && t.fillWidth == Some(t.progress)
    // a firing leaves the latch, the timers, the listeners and the page effects alone
    ensures t.videoLoaded == s.videoLoaded && t.timeoutPending == s.timeoutPending &&
            t.listeners == s.listeners && t.look == s.look && t.session == s.session &&
            t.heroInitCount == s.heroInitCount && t.scroll == s.scroll &&
            t.playCalls == s.playCalls && t.log == s.log && t.scrolled == s.scrolled
  {
    if !s.intervalActive then s
    else
      var p := NextProgress(s.progress, s.videoLoaded, r);
      s.(progress := p, fillWidth := Some(p), intervalActive := p != Full,
         phase := if p == Full then Settling else s.phase,
         fastTicks := if s.videoLoaded then s.fastTicks + 1 else s.fastTicks)
  }

  /** The video fires `e`; a listener still registered for it sets the latch
      and is consumed. */
  function OnVideo(s: State, e: VideoEvent): (t: State)
    ensures t.videoLoaded == (s.videoLoaded || e in s.listeners)
    ensures t.listeners == s.listeners - {e}
    ensures t.(videoLoaded := s.videoLoaded, listeners := s.listeners) == s
  {
    if e in s.listeners then s.(videoLoaded := true, listeners := s.listeners - {e})
    else s
  }

  /** The readiness ceiling fires and sets the latch. */
  function OnTimeout(s: State): (t: State)
    ensures t.videoLoaded == (s.videoLoaded || s.timeoutPending) && !t.timeoutPending
    ensures t.(videoLoaded := s.videoLoaded, timeoutPending := s.timeoutPending) == s
  {
    if s.timeoutPending then s.(videoLoaded := true, timeoutPending := false) else s
  }

  /** `heroVideo.play()`, issued only when the page has a hero video: the
      number of play requests made so far ... */
  function PlayCalls(pg: Page, calls: nat): nat
  {
    if pg.video.HeroVideo? then calls + 1 else calls
  }

  /** ... and the console log, which gains the auto-play message when the
      play request is rejected. */
  function PlayLog(pg: Page, log: seq<string>, playRejected: bool): seq<string>
  {
    if pg.video.HeroVideo? && playRejected then log + [AutoPlayMessage] else log
  }

  /** The settle timer fires: fade the loader, start the hero animations,
      mark the session visited, ask the video to play (a rejection is only
      logged) and schedule the scroll to the fragment's element. */
  function OnSettle(pg: Page, s: State, playRejected: bool): (t: State)
    // the timer acts only while settling, and then reveals
    ensures s.phase != Settling ==> t == s
    ensures s.phase == Settling ==>
      t.phase == Revealed && t.look == Faded && ReturningUser(t.session) &&
      t.heroInitCount == s.heroInitCount + 1 &&
      t.scroll == PendingScroll(pg, RevealScrollDelay)
    // play() is requested exactly when there is a hero video, and a rejection
    // is logged, never fatal
    ensures s.phase == Settling ==>
      t.playCalls == s.playCalls + (if pg.video.HeroVideo? then 1 else 0) &&
      t.log == s.log + (if pg.video.HeroVideo? && playRejected then [AutoPlayMessage] else [])
    // progress, the latch and the interval are untouched
    ensures t.progress == s.progress && t.videoLoaded == s.videoLoaded &&
            t.intervalActive == s.intervalActive
    // and so are the ceiling, the listeners, the fill, past scrolls and the tick count
    ensures t.timeoutPending == s.timeoutPending && t.listeners == s.listeners &&
            t.fillWidth == s.fillWidth && t.scrolled == s.scrolled && t.fastTicks == s.fastTicks
  {
    if s.phase != Settling then s
    else
      s.(phase := Revealed, look := Faded, heroInitCount := s.heroInitCount + 1,
         session := s.session[VisitedKey := VisitedValue],
         playCalls := PlayCalls(pg, s.playCalls),
         log := PlayLog(pg, s.log, playRejected),
         scroll := PendingScroll(pg, RevealScrollDelay))
  }

  /** The deferred scroll fires and scrolls its target into view. */
  function OnScroll(s: State): (t: State)
    ensures t.scroll == None
    ensures t.scrolled == s.scrolled + (if s.scroll.Some? then [s.scroll.value.target] else [])
    ensures t.(scroll := s.scroll, scrolled := s.scrolled) == s
  {
    match s.scroll
    case None => s
    case Some(sc) => s.(scroll := None, scrolled := s.scrolled + [sc.target])
  }

  predicate Admissible(ev: Event)
  {
    ev.Tick? ==> Draw(ev.draw)
  }

  predicate AllAdmissible(evs: seq<Event>)
  {
    forall i :: 0 <= i < |evs| ==> Admissible(evs[i])
  }

  /** What no event can undo: the latch stays set, a cleared interval or a
      passed ceiling never restarts, a consumed listener never returns, and
      the hero animations are never un-started. */
  predicate OneWay(s: State, t: State)
  {
    (s.videoLoaded ==> t.videoLoaded) && (!s.intervalActive ==> !t.intervalActive) &&
    (!s.timeoutPending ==> !t.timeoutPending) && t.listeners <= s.listeners &&
    s.heroInitCount <= t.heroInitCount
  }

  function Step(pg: Page, s: State, ev: Event): (t: State)
    requires Admissible(ev)
    ensures OneWay(s, t)
  {
    match ev
    case Tick(r) => OnTick(s, r)
    case VideoFired(e) => OnVideo(s, e)
    case Timeout => OnTimeout(s)
    case SettleTimer(rejected) => OnSettle(pg, s, rejected)
    case ScrollTimer => OnScroll(s)
  }

  /** The state after the events `evs`, in order. */
  function Replay(pg: Page, s: State, evs: seq<Event>): (t: State)
    requires AllAdmissible(evs)
    ensures OneWay(s, t)
    decreases |evs|
  {
    if |evs| == 0 then s else Replay(pg, Step(pg, s, evs[0]), evs[1..])
  }

  /** Successive interval firings with the draws `rs`. */
  function TickEvents(rs: seq<real>): (evs: seq<Event>)
    ensures |evs| == |rs|
    ensures forall i :: 0 <= i < |rs| ==> evs[i] == Tick(rs[i])
    ensures Draws(rs) ==> AllAdmissible(evs)
  {
    if |rs| == 0 then [] else [Tick(rs[0])] + TickEvents(rs[1..])
  }

  /** The order of the phases; Skipped is a path of its own. */
  function Rank(p: Phase): nat
  {
    match p
    case Loading => 0
    case Settling => 1
    case Revealed => 2
    case Skipped => 3
  }

  /** The latch is set once nothing is left to wait for: no video, a video
      ready at the start, or the readiness ceiling already passed. */
  predicate Latched(pg: Page, s: State)
  {
    (ReadyAtStart(pg.video) ==> s.videoLoaded) && (!s.timeoutPending ==> s.videoLoaded)
  }

  /** Nothing of the reveal has happened yet. */
  predicate Unrevealed(pg: Page, s: State)
  {
    s.heroInitCount == 0 && s.look == Shown && s.session == pg.session &&
    s.playCalls == 0 && s.log == [] && s.scroll == None && s.scrolled == []
  }

  /** A fragment naming an element leads to exactly one scroll, after
      `delay`: first pending, then issued; otherwise to none. */
  predicate ScrollOnce(pg: Page, s: State, delay: nat)
  {
    match HashTarget(pg)
    case None => s.scroll == None && s.scrolled == []
    case Some(t) =>
      (s.scroll == Some(Scroll(t, delay)) && s.scrolled == []) ||
      (s.scroll == None && s.scrolled == [t])
  }

  /** What holds of the loader in every state it can reach. */
  predicate Inv(pg: Page, s: State)
  {
    // the entry decision is taken once and fixes the path
    (s.phase.Skipped? <==> !RunsLoader(pg)) &&
    // progress stays in [0, 100] and the fill shows it
    0.0 <= s.progress <= Full &&
    (s.fillWidth.Some? ==> s.fillWidth.value == s.progress) &&
    // until the latch is set, progress stays below 87
    (!s.videoLoaded ==> s.progress < SlowCap + 2.0 && s.fastTicks == 0) &&
    (s.listeners != {} ==> pg.video.HeroVideo? && !ReadyAtStart(pg.video)) &&
    // once the latch is set each tick adds at least 5, so at most 20 are taken
    s.fastTicks <= 20 &&
    match s.phase
    case Loading =>
      s.intervalActive && s.progress < Full && 5.0 * (s.fastTicks as real) <= s.progress &&
      Latched(pg, s) && Unrevealed(pg, s)
    case Settling =>
      !s.intervalActive && s.progress == Full && Latched(pg, s) && Unrevealed(pg, s)
    case Revealed =>
      !s.intervalActive && s.progress == Full && Latched(pg, s) &&
      s.heroInitCount == 1 && s.look == Faded &&
      s.session == pg.session[VisitedKey := VisitedValue] &&
      s.playCalls == (if pg.video.HeroVideo? then 1 else 0) &&
      (s.log == [] || (pg.video.HeroVideo? && s.log == [AutoPlayMessage])) &&
      ScrollOnce(pg, s, RevealScrollDelay)
    case Skipped =>
      !s.intervalActive && s.progress == 0.0 && !s.timeoutPending && s.listeners == {} &&
      s.fillWidth == None && s.fastTicks == 0 &&
      s.heroInitCount == 1 && s.look == (if pg.loaderPresent then Removed else Absent) &&
      s.session == pg.session && s.playCalls == 0 && s.log == [] &&
      ScrollOnce(pg, s, SkipScrollDelay)
  }

  /** What one event may change: progress never falls, the latch is only
      ever set, and the phase only moves forward. */
  predicate Advances(s: State, t: State)
  {
    s.progress <= t.progress && (s.videoLoaded ==> t.videoLoaded) &&
    Rank(s.phase) <= Rank(t.phase) && s.heroInitCount <= t.heroInitCount
  }

  /** The loader path: the interval and the readiness ceiling are started,
      the latch is set at once exactly when there is nothing to wait for,
      both listeners are registered exactly when there is something to wait
      for, and nothing is revealed yet. */
  lemma LoaderEntry(pg: Page)
    requires RunsLoader(pg)
    ensures var s := Start(pg);
      s.phase == Loading && s.progress == 0.0 && s.fillWidth == None &&
      s.intervalActive && s.timeoutPending &&
      s.videoLoaded == ReadyAtStart(pg.video) &&
      (s.listeners == {CanPlayThrough, LoadedData} <==> !ReadyAtStart(pg.video)) &&
      (s.listeners == {} <==> ReadyAtStart(pg.video)) &&
      s.look == Shown && s.heroInitCount == 0 && s.session == pg.session &&
      s.playCalls == 0 && s.scroll == None && s.scrolled == []
  {
  }

  /** The skip path, taken by a returning visitor or a page without the
      loader markup: the loader container (if any) is hidden, the hero
      animations start, no timer is started but the scroll to the fragment's
      element 100 ms later, and the session is left alone. */
  lemma SkipEntry(pg: Page)
    requires !RunsLoader(pg)
    ensures var s := Start(pg);
      s.phase == Skipped && !s.intervalActive && !s.timeoutPending && s.listeners == {} &&
      s.progress == 0.0 && s.fillWidth == None &&
      (s.look == Removed <==> pg.loaderPresent) && (s.look == Absent <==> !pg.loaderPresent) &&
      s.heroInitCount == 1 && s.session == pg.session && s.playCalls == 0 &&
      (s.scroll.Some? <==> pg.hash != "" && pg.hash in pg.matching) &&
      (s.scroll.Some? ==> s.scroll.value == Scroll(pg.hash, SkipScrollDelay)) &&
      s.scrolled == []
  {
  }

  lemma TickInv(pg: Page, s: State, r: real)
    requires Inv(pg, s) && Draw(r)
    ensures Inv(pg, OnTick(s, r)) && Advances(s, OnTick(s, r))
  {
  }

  lemma VideoInv(pg: Page, s: State, e: VideoEvent)
    requires Inv(pg, s)
    ensures Inv(pg, OnVideo(s, e)) && Advances(s, OnVideo(s, e))
  {
  }

  lemma TimeoutInv(pg: Page, s: State)
    requires Inv(pg, s)
    ensures Inv(pg, OnTimeout(s)) && Advances(s, OnTimeout(s))
  {
  }

  lemma SettleInv(pg: Page, s: State, playRejected: bool)
    requires Inv(pg, s)
    ensures Inv(pg, OnSettle(pg, s, playRejected)) && Advances(s, OnSettle(pg, s, playRejected))
  {
  }

  lemma ScrollInv(pg: Page, s: State)
    requires Inv(pg, s)
    ensures Inv(pg, OnScroll(s)) && Advances(s, OnScroll(s))
  {
  }

  lemma StepInv(pg: Page, s: State, ev: Event)
    requires Inv(pg, s) && Admissible(ev)
    ensures Inv(pg, Step(pg, s, ev)) && Advances(s, Step(pg, s, ev))
  {
    match ev
    case Tick(r) => TickInv(pg, s, r);
    case VideoFired(e) => VideoInv(pg, s, e);
    case Timeout => TimeoutInv(pg, s);
    case SettleTimer(rejected) => SettleInv(pg, s, rejected);
    case ScrollTimer => ScrollInv(pg, s);
  }

  /** Every sequence of events keeps the invariant and only moves forward. */
  lemma {:induction false} ReplayInv(pg: Page, s: State, evs: seq<Event>)
    requires Inv(pg, s) && AllAdmissible(evs)
    ensures Inv(pg, Replay(pg, s, evs)) && Advances(s, Replay(pg, s, evs))
    decreases |evs|
  {
    if |evs| > 0 {
      StepInv(pg, s, evs[0]);
      ReplayInv(pg, Step(pg, s, evs[0]), evs[1..]);
    }
  }

  /** In every state the page can reach: progress is in [0, 100], the path
      chosen at entry is kept, the hero animations start at most once (and
      exactly when the page is revealed or the loader skipped), the video is
      asked to play at most once, at most twenty firings are taken with the
      latch set, whatever the interleaving, and a revealed page has marked the session
      so that the next load in it takes the skip path. */
  lemma Reachable(pg: Page, evs: seq<Event>)
    requires AllAdmissible(evs)
    ensures var t := Replay(pg, Start(pg), evs);
      0.0 <= t.progress <= Full &&
      (t.phase.Skipped? <==> !RunsLoader(pg)) &&
      (t.heroInitCount == 1 <==> t.phase.Revealed? || t.phase.Skipped?) &&
      t.heroInitCount <= 1 && t.playCalls <= 1 && |t.scrolled| <= 1 && t.fastTicks <= 20 &&
      (t.phase.Revealed? ==> !RunsLoader(pg.(session := t.session)))
  {
    ReplayInv(pg, Start(pg), evs);
  }

  lemma TickEventsTail(rs: seq<real>)
    requires |rs| > 0
    ensures TickEvents(rs)[0] == Tick(rs[0])
    ensures TickEvents(rs)[1..] == TickEvents(rs[1..])
  {
    assert TickEvents(rs) == [Tick(rs[0])] + TickEvents(rs[1..]);
  }

  /** Once the interval is cleared, further firings change nothing. */
  lemma {:induction false} IdleTicks(pg: Page, s: State, rs: seq<real>)
    requires !s.intervalActive && Draws(rs)
    ensures Replay(pg, s, TickEvents(rs)) == s
    decreases |rs|
  {
    if |rs| > 0 {
      TickEventsTail(rs);
      IdleTicks(pg, s, rs[1..]);
    }
  }

  /** While loading, a run of interval firings moves progress exactly as the
      simulator's `Run` does with the latch as it stands, and the loader
      moves to settling precisely when progress lands on 100. */
  lemma {:induction false} TicksFollowRun(pg: Page, s: State, rs: seq<real>)
    requires Inv(pg, s) && s.phase == Loading && Draws(rs)
    ensures
      var t := Replay(pg, s, TickEvents(rs));
      t.progress == Run(s.progress, s.videoLoaded, rs) &&
      t.videoLoaded == s.videoLoaded &&
      t.phase == (if t.progress == Full then Settling else Loading)
    decreases |rs|
  {
    if |rs| > 0 {
      TickEventsTail(rs);
      var s' := OnTick(s, rs[0]);
      TickInv(pg, s, rs[0]);
      if s'.progress == Full {
        IdleTicks(pg, s', rs[1..]);
      } else {
        TicksFollowRun(pg, s', rs[1..]);
      }
    }
  }

  /** With the latch set, twenty interval firings end the loading phase with
      progress at exactly 100 and the settle timer started. */
  lemma LatchedLoaderSettles(pg: Page, s: State, rs: seq<real>)
    requires Inv(pg, s) && s.phase == Loading && s.videoLoaded
    requires Draws(rs) && |rs| >= 20
    ensures
      var t := Replay(pg, s, TickEvents(rs));
      t.phase == Settling && t.progress == Full && !t.intervalActive
  {
    TicksFollowRun(pg, s, rs);
    FastFinish(s.progress, rs);
    ReplayInv(pg, s, TickEvents(rs));
  }

  /** Without the latch, any number of firings leaves the loader loading with
      progress below 87, and progress stops moving once it has reached 85. */
  lemma UnlatchedLoaderStalls(pg: Page, s: State, rs: seq<real>)
    requires Inv(pg, s) && s.phase == Loading && !s.videoLoaded && Draws(rs)
    ensures
      var t := Replay(pg, s, TickEvents(rs));
      t.phase == Loading && t.progress < SlowCap + 2.0 &&
      (s.progress >= SlowCap ==> t.progress == s.progress)
  {
    TicksFollowRun(pg, s, rs);
    SlowStall(s.progress, rs);
  }

  lemma {:induction false} ReplayAppend(pg: Page, s: State, a: seq<Event>, b: seq<Event>)
    requires AllAdmissible(a) && AllAdmissible(b)
    ensures AllAdmissible(a + b)
    ensures Replay(pg, s, a + b) == Replay(pg, Replay(pg, s, a), b)
    decreases |a|
  {
    if |a| > 0 {
      assert (a + b)[0] == a[0];
      assert (a + b)[1..] == a[1..] + b;
      ReplayAppend(pg, Step(pg, s, a[0]), a[1..], b);
    } else {
      assert a + b == b;
    }
  }

  lemma ReplayOne(pg: Page, s: State, ev: Event)
    requires Admissible(ev)
    ensures AllAdmissible([ev]) && Replay(pg, s, [ev]) == Step(pg, s, ev)
  {
    assert [ev][1..] == [];
  }

  /** Once the readiness ceiling has fired, it stays passed whatever comes
      before or after it. */
  lemma CeilingPassed(pg: Page, s: State, a: seq<Event>, b: seq<Event>)
    requires AllAdmissible(a) && AllAdmissible(b)
    ensures AllAdmissible(a + [Timeout] + b)
    ensures !Replay(pg, s, a + [Timeout] + b).timeoutPending
  {
    ReplayOne(pg, Replay(pg, s, a), Timeout);
    ReplayAppend(pg, s, a, [Timeout]);
    ReplayAppend(pg, s, a + [Timeout], b);
  }

  /** On the loader path, after any events at all once the readiness ceiling
      has passed, twenty interval firings and the settle timer leave the page
      revealed: progress at 100, the loader faded, the hero animations started
      once and the session marked visited. */
  lemma LoaderCompletes(pg: Page, pre: seq<Event>, rs: seq<real>, playRejected: bool)
    requires RunsLoader(pg) && AllAdmissible(pre) && Draws(rs) && |rs| >= 20
    requires !Replay(pg, Start(pg), pre).timeoutPending
    ensures AllAdmissible(TickEvents(rs) + [SettleTimer(playRejected)])
    ensures var t := Replay(pg, Replay(pg, Start(pg), pre), TickEvents(rs) + [SettleTimer(playRejected)]);
      t.phase == Revealed && t.progress == Full && t.look == Faded &&
      t.heroInitCount == 1 && ReturningUser(t.session)
  {
    var s := Replay(pg, Start(pg), pre);
    ReplayInv(pg, Start(pg), pre);
    var s2 := Replay(pg, s, TickEvents(rs));
    if s.phase == Loading {
      LatchedLoaderSettles(pg, s, rs);
      ReplayInv(pg, s, TickEvents(rs));
    } else {
      IdleTicks(pg, s, rs);
    }
    ReplayOne(pg, s2, SettleTimer(playRejected));
    SettleInv(pg, s2, playRejected);
    ReplayAppend(pg, s, TickEvents(rs), [SettleTimer(playRejected)]);
  }

  class Loader {
    const page: Page

    var phase: Phase
    var progress: real
    var videoLoaded: bool
    var intervalActive: bool
    var timeoutPending: bool
    var listeners: set<VideoEvent>
    var fillWidth: Option<real>
    var look: LoaderLook
    var heroInitCount: nat
    var session: map<string, string>
    var playCalls: nat
    var log: seq<string>
    var scroll: Option<Scroll>
    var scrolled: seq<string>
    ghost var fastTicks: nat

    ghost function Snapshot(): State
      reads this
    {
      State(phase, progress, videoLoaded, intervalActive, timeoutPending, listeners,
                      fillWidth, look, heroInitCount, session, playCalls, log, scroll, scrolled,
                      fastTicks)
    }

    ghost predicate Valid()
      reads this
    {
      Inv(page, Snapshot())
    }

    /** The DOMContentLoaded handler's loader block. */
    constructor (page: Page)
      ensures this.page == page
      ensures Snapshot() == Start(page) && Valid()
    {
      this.page := page;
      progress := 0.0;
      fillWidth := None;
      session := page.session;
      playCalls := 0;
      log := [];
      scrolled := [];
      fastTicks := 0;
      if page.loaderPresent && page.fillPresent && !ReturningUser(page.session) {
        phase := Loading;
        look := Shown;
        heroInitCount := 0;
        scroll := None;
        if page.video.HeroVideo? && page.video.readyState >= HaveFutureData {
          videoLoaded := true;
          listeners := {};
        } else if page.video.HeroVideo? {
          videoLoaded := false;
          listeners := {CanPlayThrough, LoadedData};
        } else {
          videoLoaded := true;
          listeners := {};
        }
        timeoutPending := true;
        intervalActive := true;
      } else {
        phase := Skipped;
        videoLoaded := false;
        listeners := {};
        timeoutPending := false;
        intervalActive := false;
        look := if page.loaderPresent then Removed else Absent;
        heroInitCount := 1;
        if page.hash != "" && page.hash in page.matching {
          scroll := Some(Scroll(page.hash, SkipScrollDelay));
        } else {
          scroll := None;
        }
      }
      new;
    }

    /** One firing of the 50 ms interval with the Math.random() draw `r`. */
    method Tick(r: real)
      requires Draw(r)
      modifies this`progress, this`fillWidth, this`intervalActive, this`phase, this`fastTicks
      ensures Snapshot() == OnTick(old(Snapshot()), r)
      ensures old(Valid()) ==> Valid()
    {
      if intervalActive {
        if !videoLoaded {
          if progress < SlowCap {
            progress := progress + r * 2.0;
          }
        } else {
          progress := progress + (r * 10.0 + 5.0);
          fastTicks := fastTicks + 1;
        }
        if progress > Full {
          progress := Full;
        }
        fillWidth := Some(progress);
        if progress == Full {
          intervalActive := false;
          phase := Settling;
        }
      }
      assert Snapshot() == OnTick(old(Snapshot()), r);
      if old(Valid()) {
        TickInv(page, old(Snapshot()), r);
      }
    }

    /** The video fires `e`. */
    method VideoFires(e: VideoEvent)
      modifies this`videoLoaded, this`listeners
      ensures Snapshot() == OnVideo(old(Snapshot()), e)
      ensures old(Valid()) ==> Valid()
    {
      if e in listeners {
        videoLoaded := true;
        listeners := listeners - {e};
      }
      assert Snapshot() == OnVideo(old(Snapshot()), e);
      if old(Valid()) {
        VideoInv(page, old(Snapshot()), e);
      }
    }

    /** The 5000 ms readiness ceiling fires. */
    method TimeoutFires()
      modifies this`videoLoaded, this`timeoutPending
      ensures Snapshot() == OnTimeout(old(Snapshot()))
      ensures old(Valid()) ==> Valid()
    {
      if timeoutPending {
        videoLoaded := true;
        timeoutPending := false;
      }
      assert Snapshot() == OnTimeout(old(Snapshot()));
      if old(Valid()) {
        TimeoutInv(page, old(Snapshot()));
      }
    }

    /** The 500 ms settle timer fires; `playRejected` says whether the
        video's play() promise rejects. */
    method SettleElapsed(playRejected: bool)
      modifies this`phase, this`look, this`heroInitCount, this`session, this`playCalls,
               this`log, this`scroll
      ensures Snapshot() == OnSettle(page, old(Snapshot()), playRejected)
      ensures old(Valid()) ==> Valid()
    {
      if phase == Settling {
        look := Faded;
        heroInitCount := heroInitCount + 1;
        session := session[VisitedKey := VisitedValue];
        // heroVideo.play(); a rejection is caught and logged
        playCalls := PlayCalls(page, playCalls);
        log := PlayLog(page, log, playRejected);
        scroll := PendingScroll(page, RevealScrollDelay);
        phase := Revealed;
      }
      assert Snapshot() == OnSettle(page, old(Snapshot()), playRejected);
      if old(Valid()) {
        SettleInv(page, old(Snapshot()), playRejected);
      }
    }

    /** The deferred scroll fires. */
    method ScrollElapsed()
      modifies this`scroll, this`scrolled
      ensures Snapshot() == OnScroll(old(Snapshot()))
      ensures old(Valid()) ==> Valid()
    {
      if scroll.Some? {
        scrolled := scrolled + [scroll.value.target];
        scroll := None;
      }
      assert Snapshot() == OnScroll(old(Snapshot()));
      if old(Valid()) {
        ScrollInv(page, old(Snapshot()));
      }
    }
  }
}
