/** The progress simulator behind the loading screen: one tick every 50 ms
    raises `progress` slowly while the hero video is not ready (and only while
    it is below 85), quickly once it is, and clamps at 100. Each tick takes one
    draw of Math.random(), a value in [0, 1), as a parameter; values are exact
    reals. */
module Progress {

  /** The value below which slow growth is allowed while the video is not ready. */
  const SlowCap: real := 85.0
  /** The completed value; the interval stops on exact equality with it. */
  const Full: real := 100.0

  /** A value Math.random() can return. */
  predicate Draw(r: real) { 0.0 <= r < 1.0 }

  predicate Draws(rs: seq<real>)
  {
    forall i :: 0 <= i < |rs| ==> Draw(rs[i])
  }

  /** The increment a tick adds for the draw r: Math.random() * 2 while the
      video is not ready, Math.random() * 10 + 5 once it is. */
  function Increment(loaded: bool, r: real): (inc: real)
    requires Draw(r)
    ensures loaded ==> 5.0 <= inc < 15.0
    ensures !loaded ==> 0.0 <= inc < 2.0
  {
    if loaded then r * 10.0 + 5.0 else r * 2.0
  }

  /** The value one interval tick leaves in `progress`. */
  function NextProgress(p: real, loaded: bool, r: real): (q: real)
    requires Draw(r)
    ensures q <= Full
    ensures p <= Full ==> p <= q
    ensures !loaded && SlowCap <= p <= Full ==> q == p
    ensures !loaded && p < SlowCap ==> q < SlowCap + 2.0
    ensures loaded && p <= Full ==> q == Full || q >= p + 5.0
  {
    var raised :=
      if !loaded then (if p < SlowCap then p + Increment(loaded, r) else p)
      else p + Increment(loaded, r);
    if raised > Full then Full else raised
  }

  /** The interval driven by a sequence of draws with the latch fixed: a tick
      happens only while progress has not landed on 100 (after that the
      interval is cleared). Any run keeps progress in [0, 100] and never
      lowers it. */
  function Run(p: real, loaded: bool, rs: seq<real>): (q: real)
    requires Draws(rs)
    ensures 0.0 <= p <= Full ==> p <= q <= Full
    decreases |rs|
  {
    if |rs| == 0 || p == Full then p
    else Run(NextProgress(p, loaded, rs[0]), loaded, rs[1..])
  }

  /** How many of the draws are consumed by ticks before the interval stops;
      it stops early only because progress has landed on 100. */
  function Ticks(p: real, loaded: bool, rs: seq<real>): (k: nat)
    requires Draws(rs)
    ensures k <= |rs|
    ensures k < |rs| ==> Run(p, loaded, rs) == Full
    decreases |rs|
  {
    if |rs| == 0 || p == Full then 0
    else 1 + Ticks(NextProgress(p, loaded, rs[0]), loaded, rs[1..])
  }

  /** While the video is not ready, progress stays below 87, every draw is a
      tick (the interval never stops), and once progress has reached 85 it
      does not move at all. */
  lemma {:induction false} SlowStall(p: real, rs: seq<real>)
    requires 0.0 <= p < SlowCap + 2.0
    requires Draws(rs)
    ensures Run(p, false, rs) < SlowCap + 2.0
    ensures p >= SlowCap ==> Run(p, false, rs) == p
    ensures Ticks(p, false, rs) == |rs|
    decreases |rs|
  {
    if |rs| > 0 {
      SlowStall(NextProgress(p, false, rs[0]), rs[1..]);
    }
  }

  /** Once the video is ready, enough draws to cover the remaining distance at
      5 per tick make progress land exactly on 100. */
  lemma {:induction false} FastFinishFrom(p: real, rs: seq<real>)
    requires 0.0 <= p <= Full
    requires Draws(rs)
    requires 5.0 * (|rs| as real) >= Full - p
    ensures Run(p, true, rs) == Full
    decreases |rs|
  {
    if |rs| > 0 && p != Full {
      FastFinishFrom(NextProgress(p, true, rs[0]), rs[1..]);
    }
  }

  /** Each fast tick that does not finish adds at least 5, so the number of
      ticks taken is bounded by the remaining distance. */
  lemma {:induction false} FastTickBound(p: real, rs: seq<real>)
    requires 0.0 <= p <= Full
    requires Draws(rs)
    ensures 5.0 * (Ticks(p, true, rs) as real) < Full - p + 5.0
    decreases |rs|
  {
    if |rs| > 0 && p != Full {
      FastTickBound(NextProgress(p, true, rs[0]), rs[1..]);
    }
  }

  /** Slow growth is not capped at 85 itself: a value just below 85 can be
      carried past it by the last slow increment. */
  lemma SlowOvershoot()
    ensures Draw(0.9) && NextProgress(84.0, false, 0.9) == 85.8 && 85.8 > SlowCap
  {
  }

  /** A slow tick that holds progress at 85 until the video is ready: the
      increment is cut off at the cap instead of being skipped only once the
      cap is reached. */
  function CappedProgress(p: real, loaded: bool, r: real): (q: real)
    requires Draw(r)
    ensures !loaded && p <= SlowCap ==> p <= q <= SlowCap
    ensures !loaded && SlowCap <= p <= Full ==> q == p
    ensures loaded ==> q == NextProgress(p, loaded, r)
  {
    if !loaded && p < SlowCap then
      (if p + Increment(loaded, r) > SlowCap then SlowCap else p + Increment(loaded, r))
    else NextProgress(p, loaded, r)
  }

  /** From any value, twenty fast draws bring progress to exactly 100, and the
      interval is cleared after at most twenty ticks. */
  lemma FastFinish(p: real, rs: seq<real>)
    requires 0.0 <= p <= Full
    requires Draws(rs)
    requires |rs| >= 20
    ensures Run(p, true, rs) == Full
    ensures Ticks(p, true, rs) <= 20
  {
    FastFinishFrom(p, rs);
    FastTickBound(p, rs);
  }
}
