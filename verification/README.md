# Ayyan service landing page: loader bootstrap and typewriter

This project models, in Dafny, the two stateful behaviours of the landing
page's `script.js`.

**The loader bootstrap.** When the DOM is ready, the page takes an entry decision:
- A visitor whose session storage already holds `visited`, or a page lacking
  the loader container or its progress fill, takes the skip path. The loader
  container (if any) is hidden, the hero animations start, and a scroll to
  the element named by the address fragment is scheduled 100 ms later.
- Otherwise the loader runs. A readiness latch `videoLoaded` is set at once
  when there is no hero video or it is already buffered (`readyState >= 3`).
  If not, it is set by a once-only `canplaythrough` or `loadeddata` listener,
  or at the latest by a 5000 ms timeout.

While the loader runs:
- A 50 ms interval raises `progress`. Without the latch it adds
  `Math.random() * 2`, and only while progress is below 85. With the latch it
  adds `Math.random() * 10 + 5`. It clamps at 100 and writes the fill's width.
- When progress lands exactly on 100 the interval is cleared. 500 ms later the
  loader fades, the hero animations start, the session is marked `visited`,
  the video is asked to play (a rejection is only logged), and the scroll to
  the fragment's element is scheduled 500 ms after that.

The comment in the source speaks of a cap at 85 %. The code only stops adding
once progress has reached 85, so the last slow increment can carry it up to
just below 87 (`Progress.SlowOvershoot` exhibits 84 becoming 85.8). The
model follows the code; see "## Findings".

**The typewriter.** A self-rescheduling step cycles through four fixed
phrases:
- it types the current phrase one character per 100 ms;
- it pauses 2000 ms with the phrase complete;
- it deletes one character per 50 ms;
- it pauses 500 ms on the empty display and moves to the next phrase,
  wrapping after the last.

**Structure.**
- `progress.dfy` (module `Progress`): the pure progress tick `NextProgress`.
  It takes one Math.random() draw in [0, 1) as a parameter. The module also
  has `Run`/`Ticks` over a sequence of draws with the latch fixed, and the
  lemmas about them.
- `bootstrap.dfy` (module `Bootstrap`): the loader as a state machine.
  - `Page` is what the handler finds on the page; `State` is everything the
    loader changes.
  - `Start` is the entry decision. One transition function per timer or event:
    `OnTick`, `OnVideo`, `OnTimeout`, `OnSettle`, `OnScroll`. `Replay` applies
    a sequence of events.
  - `Inv` holds in every reachable state, and lemmas connect runs of
    interval firings to `Progress.Run`.
  - The class `Loader` holds the same state in mutable fields. Its
    constructor and event methods update those fields in place, as the
    handler's closures and DOM writes do. Each method is proved to perform
    exactly its transition function and to keep `Valid()` (that is, `Inv`).
  - Each timer or listener is an event. An event whose timer or listener is
    not pending changes nothing, so any interleaving the browser's event loop
    can produce is a sequence of events.
- `typewriter.dfy` (module `Typewriter`): the pure step `TypeStep` on a
  `Cursor` (phrase index, characters shown, deleting), with lemmas about
  iterating it. The class `Typewriter` has the source's mutable variables as
  fields and the display text as a field. `TypeEffect` updates them in place
  and is proved to perform `TypeStep`.

**Environment.**
- Session storage is a `map<string, string>`. `getItem('visited')` is truthy
  when the key is present with a non-empty value.
- `document.querySelector(location.hash)` finding an element is membership of
  the fragment in the set `Page.matching`. Both are read once, from the page
  as the handler finds it.
- Timers are events. Only the order of events is modelled, not when they
  happen. The periods of the 50 ms interval, the 5000 ms ceiling and the
  500 ms settle timer are not recorded. The delays of the two deferred scrolls
  are recorded in the pending `Scroll`.
- Math.random() draws, the `play()` outcome and the order of timer and
  listener callbacks are inputs: parameters of the methods, and the events of
  a `Replay`.

## Model

| member | source | states |
|---|---|---|
| Progress.Increment | script.js:47-55 | a draw adds an amount in [0, 2) while the latch is unset and in [5, 15) once it is set |
| Progress.NextProgress | script.js:45-57 | one tick never exceeds 100 and never lowers a value in range; without the latch it leaves a value at or above 85 unchanged and keeps one below 85 under 87; with the latch it lands on 100 or adds at least 5 |
| Progress.Run | script.js:45-61 | the interval run over a sequence of draws, stopping once progress is 100, keeps progress in [0, 100] and never below its starting value |
| Progress.Ticks | script.js:45-61 | the number of firings taken is at most the number of draws, and the interval stops early only because progress has landed on 100 |
| Progress.SlowStall | script.js:47-51 | without the latch, progress stays below 87, every draw is a tick, and once at or above 85 progress never moves |
| Progress.FastFinishFrom | script.js:52-61 | with the latch, enough ticks to cover the remaining distance at 5 each bring progress to exactly 100 |
| Progress.FastTickBound | script.js:52-61 | with the latch, the number of ticks taken before the interval stops is bounded by the remaining distance divided by 5, plus one |
| Progress.FastFinish | script.js:52-61 | with the latch, from any value in range, 20 ticks reach exactly 100 and the interval is cleared after at most 20 ticks |
| Progress.SlowOvershoot | script.js:47-51 | without the latch, a tick from 84 with the draw 0.9 leaves 85.8: slow growth can pass 85 |
| Progress.CappedProgress | script.js:47-51 | the corrected slow tick: without the latch it never carries progress past 85 and is frozen from 85; with the latch it is the source's tick |
| Bootstrap.LoaderEntry | script.js:14-45 | on the loader path the interval and the 5000 ms ceiling start; the latch is set at once iff there is no video or it is buffered; the two listeners are registered iff it is not; nothing is revealed |
| Bootstrap.SkipEntry | script.js:84-100 | on the skip path no timer runs; the loader is hidden iff it exists; the hero animations start once; the session is untouched; a 100 ms scroll is scheduled iff the fragment selects an element |
| Bootstrap.Start | script.js:14-100 | the entry state satisfies the invariant, and the loader is loading exactly when it runs (skipped otherwise) |
| Bootstrap.OnTick | script.js:45-61 | a firing of a cleared interval changes nothing; otherwise progress stays at most 100 and the fill shows it; the latch, the ceiling, the listeners, the loader's look, the session, the hero-start count, play requests, the log and scrolls are untouched |
| Bootstrap.OnVideo | script.js:25-34 | the latch is set exactly when the event's listener was still registered, that listener is removed, and nothing else changes |
| Bootstrap.OnTimeout | script.js:40-43 | the latch is set, the ceiling is no longer pending, and nothing else changes |
| Bootstrap.OnSettle | script.js:62-81 | outside settling the timer changes nothing; while settling it reveals: loader faded, session visited, hero animations started one more time, the 500 ms scroll scheduled iff the fragment selects an element; play() requested exactly when there is a hero video, and a rejection appended to the log (never fatal); progress, latch, interval, ceiling, listeners, fill and past scrolls untouched |
| Bootstrap.OnScroll | script.js:76-78 | the deferred scroll, after the reveal or on the skip path (script.js:95-97): no scroll is pending afterwards; the pending target, if any, is appended to the scrolled targets; nothing else changes |
| Bootstrap.Step | script.js:17-100 | no event undoes anything one-way: the latch stays set, a cleared interval or a passed ceiling never restarts, listeners are never re-added, the hero-start count never falls |
| Bootstrap.Replay | script.js:17-100 | the same one-way facts hold across any sequence of events |
| Bootstrap.CeilingPassed | script.js:40-43 | once the 5000 ms ceiling has fired, it stays passed whatever events come before or after it |
| Bootstrap.TickInv | script.js:45-61 | a tick keeps the invariant; progress never falls and the phase only moves forward |
| Bootstrap.VideoInv | script.js:25-34 | a video event keeps the invariant; the latch is only ever set |
| Bootstrap.TimeoutInv | script.js:40-43 | the readiness ceiling keeps the invariant; the latch is only ever set |
| Bootstrap.SettleInv | script.js:62-81 | the settle timer keeps the invariant: a revealed page has the loader faded, the hero animations started once, the session marked visited, at most one play request and at most one logged rejection |
| Bootstrap.ScrollInv | script.js:73-79 | the deferred scroll, after the reveal or on the skip path (script.js:92-98), keeps the invariant: a fragment's element is scrolled into view at most once |
| Bootstrap.StepInv | script.js:17-100 | every event keeps the invariant and only moves the loader forward |
| Bootstrap.ReplayInv | script.js:17-100 | every sequence of events keeps the invariant; progress never falls, the latch is only ever set and the phase only moves forward |
| Bootstrap.Reachable | script.js:14-100 | in every reachable state: progress is in [0, 100]; the entry path is kept; the hero animations start at most once, exactly on reveal or skip; at most one play request and one scroll are made; at most 20 firings are taken with the latch set, whatever the interleaving; after the reveal, the next load in the session takes the skip path |
| Bootstrap.IdleTicks | script.js:60-61 | once the interval is cleared, further firings change nothing |
| Bootstrap.TicksFollowRun | script.js:45-62 | while loading, interval firings move progress exactly as `Progress.Run` does, and the loader settles precisely when progress lands on 100 |
| Bootstrap.LatchedLoaderSettles | script.js:52-62 | with the latch set, 20 firings end loading with progress at exactly 100, the interval cleared and the settle timer started |
| Bootstrap.UnlatchedLoaderStalls | script.js:47-51 | without the latch, any number of firings leaves the loader loading below 87, and progress is frozen once it has reached 85 |
| Bootstrap.LoaderCompletes | script.js:40-81 | on the loader path, after any admissible sequence of events once the ceiling has passed, 20 more firings and the settle timer leave the page revealed with progress 100, the loader faded, the hero animations started once and the session marked visited |
| Bootstrap.Loader.constructor | script.js:14-100 | the handler's loader block leaves the fields in the entry state `Start` and valid |
| Bootstrap.Loader.Tick | script.js:45-61 | one interval firing updates the fields exactly as `OnTick` and keeps them valid |
| Bootstrap.Loader.VideoFires | script.js:25-34 | a video event updates the fields exactly as `OnVideo` (a registered listener sets the latch and is consumed) and keeps them valid |
| Bootstrap.Loader.TimeoutFires | script.js:40-43 | the ceiling updates the fields exactly as `OnTimeout` and keeps them valid |
| Bootstrap.Loader.SettleElapsed | script.js:62-81 | the settle timer updates the fields exactly as `OnSettle` and keeps them valid |
| Bootstrap.Loader.ScrollElapsed | script.js:76-78 | the deferred scroll updates the fields exactly as `OnScroll` and keeps them valid |
| Typewriter.TypeStep | script.js:299-321 | one step stays within bounds; shows exactly the first `charIndex` characters of the phrase; moves `charIndex` by one; switches mode exactly at full length and at zero; advances the phrase, wrapping, exactly when deletion reaches zero; waits 100, 50, 2000 or 500 ms accordingly |
| Typewriter.Iterate | script.js:299-321 | any number of steps from a valid state leaves the cycler within bounds |
| Typewriter.Trace | script.js:299-321 | n steps produce n displays with their delays |
| Typewriter.TraceSteps | script.js:299-321 | the i-th entry of a trace is the step taken from the state `Iterate` reaches after i steps |
| Typewriter.TypeUp | script.js:307-315 | typing from k characters reaches the full phrase in deleting mode after length - k steps |
| Typewriter.DeleteDown | script.js:302-319 | deleting from k characters reaches the empty display of the next phrase, wrapping, in typing mode after k steps |
| Typewriter.Cycle | script.js:299-321 | from the start of phrase t, twice its length in steps reaches the start of phrase (t + 1) mod n |
| Typewriter.Rotation | script.js:316-319 | after k whole cycles from phrase t the cycler stands at the start of phrase (t + k) mod n |
| Typewriter.TwoLetterSteps | script.js:299-321 | for the phrase "AB", each of the four steps of one cycle, with its display and delay |
| Typewriter.TwoLetterScenario | script.js:299-321 | for the phrase "AB" the display reads "A", "AB", "A", "" with delays 100, 2000, 50, 500 and the cycle restarts |
| Typewriter.Typewriter.constructor | script.js:278-326 | the page's four phrases in order; the first step runs at once, leaving "P" shown, one character typed and a 100 ms delay |
| Typewriter.Typewriter.TypeEffect | script.js:299-321 | one call updates the fields exactly as `TypeStep`, keeps them within bounds, and leaves the display showing the current prefix |

## Left out

- GSAP: plugin registration, the initial `gsap.set` calls, the cursor blink and
  the body of `initHeroAnimations`. The hero animations are modelled only as
  the number of times they are started.
- The navbar, scroll-reveal animations, booking form, mobile menu, parallax and
  other handlers in `script.js`: outside the modelled core.
- Real time: timers are events and no clock orders them. Only the two scroll
  delays (500 ms and 100 ms) are recorded. The 50 ms period, the 5000 ms
  ceiling and the 500 ms settle delay are not, so the model does not say that
  the ceiling fires after about 100 firings of the interval.
- `State.fastTicks` counts firings taken with the latch set. The page has no
  such variable; it is kept as an ordinary field for the proofs.
- Floating point: progress is an exact real. Rounding of
  `progress + Math.random() * k` is not modelled.
- The `play()` promise is reduced to whether it rejects. The logged error object
  is dropped and only the message is kept.
- On the loader path the source reads `window.location.hash` and runs
  `querySelector` inside the settle callback, not on entry. The model uses the
  fragment and the matching elements as found on entry, so a fragment change
  during loading is not modelled.
- The `play()` rejection is caught and logged asynchronously, after the promise
  settles. `OnSettle` appends the message in the same step as the reveal, so
  the order of that log line relative to later events is not modelled.
- A fragment that is not a valid selector (where `querySelector` throws) is not
  modelled: a fragment either selects an element or does not. On the skip path
  such a fragment would abort the whole handler, so the typewriter would never
  start; `Typewriter.Typewriter.constructor` assumes the handler got that far.
- The typewriter's `if (typeWriterElement)` guard: the model assumes the element
  exists. The cursor element it appends is not modelled.
- Typewriter.TypeStep, Typewriter.Iterate, Typewriter.Trace and the cycle lemmas
  require every phrase to be non-empty, as the page's phrases are. With an empty
  phrase the source would type past its end forever.
- Bootstrap.Loader.Tick, VideoFires, TimeoutFires, SettleElapsed and
  ScrollElapsed do not require `Valid()`. They state `old(Valid()) ==> Valid()`,
  because each transition is defined in every state.

## Findings

| source | as written | input that shows it | evidently intended | confidence | as-written member | corrected member |
|---|---|---|---|---|---|---|
| script.js:48-50 | while the video is not ready, `Math.random() * 2` is added whenever progress is below 85, so one increment can pass the 85 cap | progress 84, draw 0.9: progress becomes 85.8 | progress held at or below 85 until the video is ready, as the comment on line 48 says | medium, not executed | Progress.NextProgress, Progress.SlowOvershoot | Progress.CappedProgress |

The loader model (`Bootstrap.OnTick`) keeps the tick as written, because
that is what the page does; `Progress.CappedProgress` states the intended
tick and what it guarantees.
