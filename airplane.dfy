/**
  The flight animation (src/components/Airplain.tsx): a progress clock sampled
  while a run is live, a one-shot explosion latch, a restart key bumped by
  resizes, the 101-point flight path, and the choice of what the plane and the
  corner readout show.

  The component's state and its props are the fields of `AirplaneAnimation`.
  The browser's clock is the `now` parameter (milliseconds) of the events that
  read it; the 50 ms sampling interval and the two 800 ms timeouts are the
  events `SampleTick`, `ExplosionTimerFires` and `PathResetTimerFires`, each
  enabled only while the callback is scheduled. The framer-motion path
  animation is the three-valued `path` field, and the `onExplode` calls are
  counted in the ghost field `explosions`.
 */
module Airplane {
  import opened Wrappers

  /** `DURATION`: nominal flight time, in seconds. */
  const Duration: real := 12.0

  /** Elapsed milliseconds at which the progress reaches 1. */
  const SaturationMs: nat := 12000

  function Min(a: real, b: real): real {
    if a <= b then a else b
  }

  /**
    One sample of the interval: elapsed seconds over `DURATION`, capped at 1.
   */
  function Progress(elapsedMs: nat): (p: real)
    ensures 0.0 <= p <= 1.0
    ensures p == 1.0 <==> elapsedMs >= SaturationMs
  {
    var elapsed := elapsedMs as real / 1000.0;
    Min(elapsed / Duration, 1.0)
  }

  /** Progress never decreases with elapsed time, and grows strictly until it saturates. */
  lemma ProgressMonotone(a: nat, b: nat)
    requires a <= b
    ensures Progress(a) <= Progress(b)
    ensures a < b && a < SaturationMs ==> Progress(a) < Progress(b)
  {
  }

  /** Below saturation the progress is the elapsed share of the 12-second flight. */
  lemma ProgressLinear(elapsedMs: nat)
    requires elapsedMs <= SaturationMs
    ensures Progress(elapsedMs) * (SaturationMs as real) == elapsedMs as real
  {
  }

  /** The plane is drawn iff it is not hidden, the game is on and it has not exploded. */
  predicate PlaneVisible(hidePlane: bool, gameActive: bool, hasExploded: bool)
    ensures hidePlane || !gameActive || hasExploded ==> !PlaneVisible(hidePlane, gameActive, hasExploded)
    ensures !hidePlane && gameActive && !hasExploded ==> PlaneVisible(hidePlane, gameActive, hasExploded)
  {
    !hidePlane && gameActive && !hasExploded
  }

  /** What the corner readout shows. */
  datatype Readout = CountdownReadout(seconds: int) | MultiplierReadout(multiplier: real) | NoReadout

  /**
    The readout: the countdown whenever there is one, else the multiplier
    while the game is on, else nothing.
   */
  function Display(countdown: Option<int>, gameActive: bool, multiplier: real): (r: Readout)
    ensures r.CountdownReadout? <==> countdown.Some?
    ensures r.CountdownReadout? ==> r.seconds == countdown.value
    ensures r.MultiplierReadout? <==> countdown.None? && gameActive
    ensures r.MultiplierReadout? ==> r.multiplier == multiplier
  {
    if countdown.Some? then CountdownReadout(countdown.value)
    else if gameActive then MultiplierReadout(multiplier)
    else NoReadout
  }

  // ---------------------------------------------------------------------------
  // The flight path

  datatype Point = Point(x: real, y: real)

  /** The i-th of the 101 path points: `t = i/100`, `x = t*width`, `y = height + 80 - t*t*height`. */
  function PathPoint(width: real, height: real, i: int): Point {
    var t := i as real / 100.0;
    Point(t * width, height + 80.0 - t * t * height)
  }

  /** The `pathD` loop: 101 points pushed in order. */
  method PathPoints(width: real, height: real) returns (points: seq<Point>)
    ensures |points| == 101
    ensures forall i :: 0 <= i < |points| ==> points[i] == PathPoint(width, height, i)
  {
    points := [];
    var i := 0;
    while i <= 100
      invariant 0 <= i <= 101
      invariant |points| == i
      invariant forall k :: 0 <= k < i ==> points[k] == PathPoint(width, height, k)
    {
      points := points + [PathPoint(width, height, i)];
      i := i + 1;
    }
  }

  /** The path starts at the bottom-left corner, 80 below the height, and ends 80 from the top at the right edge. */
  lemma PathEnds(width: real, height: real)
    ensures PathPoint(width, height, 0) == Point(0.0, height + 80.0)
    ensures PathPoint(width, height, 100) == Point(width, 80.0)
  {
  }

  /** For a positive width the x coordinates strictly increase; for a positive height the curve strictly rises. */
  lemma PathMonotone(width: real, height: real, i: int, j: int)
    requires 0 <= i < j <= 100
    ensures width > 0.0 ==> PathPoint(width, height, i).x < PathPoint(width, height, j).x
    ensures height > 0.0 ==> PathPoint(width, height, i).y > PathPoint(width, height, j).y
  {
    var ti := i as real / 100.0;
    var tj := j as real / 100.0;
    assert 0.0 <= ti < tj;
    if width > 0.0 {
      ScaleStrict(ti, tj, width);
    }
    if height > 0.0 {
      SquareStrict(ti, tj);
      ScaleStrict(ti * ti, tj * tj, height);
    }
  }

  lemma ScaleStrict(a: real, b: real, c: real)
    requires a < b && c > 0.0
    ensures a * c < b * c
  {
  }

  lemma SquareStrict(a: real, b: real)
    requires 0.0 <= a < b
    ensures a * a < b * b
  {
    calc {
      a * a;
    <=  { ScaleWeak(a, b, a); }
      b * a;
    <   { ScaleStrict(a, b, b); }
      b * b;
    }
  }

  lemma ScaleWeak(a: real, b: real, c: real)
    requires a <= b && c >= 0.0
    ensures a * c <= b * c
  {
  }

  /** Everything `PathPoints` returns satisfies the shape lemmas. */
  lemma PathShape(width: real, height: real, points: seq<Point>)
    requires |points| == 101
    requires forall i :: 0 <= i < |points| ==> points[i] == PathPoint(width, height, i)
    ensures points[0] == Point(0.0, height + 80.0) && points[100] == Point(width, 80.0)
    ensures width > 0.0 ==> forall i, j :: 0 <= i < j < |points| ==> points[i].x < points[j].x
    ensures height > 0.0 ==> forall i, j :: 0 <= i < j < |points| ==> points[i].y > points[j].y
  {
    PathEnds(width, height);
    forall i, j | 0 <= i < j < |points|
      ensures width > 0.0 ==> points[i].x < points[j].x
      ensures height > 0.0 ==> points[i].y > points[j].y
    {
      PathMonotone(width, height, i, j);
    }
  }

  // ---------------------------------------------------------------------------
  // The component

  /** The framer-motion path animation: at length 0, drawing from 0 to 1, or stopped part-way. */
  datatype PathAnimation = Rest | Drawing | Halted

  /** `controls.stop()`: a running animation halts where it is; otherwise nothing changes. */
  function Stopped(p: PathAnimation): (q: PathAnimation)
    ensures q != Drawing
    ensures p != Drawing ==> q == p
    ensures q == Rest <==> p == Rest
  {
    if p == Drawing then Halted else p
  }

  class AirplaneAnimation {
    // props
    var multiplier: real
    var threshold: real
    var countdown: Option<int>
    var gameActive: bool
    // state
    var width: real
    var height: real
    var showExplosion: bool
    var hasExploded: bool
    var hidePlane: bool
    var progress: real
    var animationKey: nat
    var startTime: Option<int>       // startTimeRef
    var samplerRunning: bool         // the interval in intervalRef is live
    var path: PathAnimation          // controls
    var pendingExplosionTimers: nat  // 800 ms timeouts of the explosion effect not yet fired
    var pendingPathResets: nat       // 800 ms timeouts of the path effect not yet fired
    ghost var explosions: nat        // calls of onExplode

    ghost predicate Valid()
      reads this
    {
      && 0.0 <= progress <= 1.0
      && (samplerRunning ==> startTime.Some?)
    }

    /** Whether the plane is drawn now (the JSX condition at the plane). */
    predicate PlaneShown()
      reads this
    {
      PlaneVisible(hidePlane, gameActive, hasExploded)
    }

    /** The corner readout now. */
    function Readout(): Readout
      reads this
    {
      Display(countdown, gameActive, multiplier)
    }

    /** Whether the explosion effect fires for the current props and latch. */
    predicate ExplosionDue()
      reads this
    {
      multiplier >= threshold && !hasExploded && gameActive
    }

    /**
      First render and the mount run of both effects: the path effect starts
      a run if the game is on and otherwise stops and schedules the path
      reset; then the explosion effect checks the latch.
     */
    constructor (multiplier: real, threshold: real, countdown: Option<int>, gameActive: bool, now: int)
      ensures Valid()
      ensures this.multiplier == multiplier && this.threshold == threshold
      ensures this.countdown == countdown && this.gameActive == gameActive
      ensures width == 1000.0 && height == 400.0 && progress == 0.0 && animationKey == 0
      ensures !hidePlane
      ensures var fire := gameActive && multiplier >= threshold;
        && hasExploded == fire && showExplosion == fire
        && explosions == (if fire then 1 else 0)
        && pendingExplosionTimers == (if fire then 1 else 0)
        && samplerRunning == gameActive
        && startTime == (if gameActive then Some(now) else None)
        && path == (if gameActive && !fire then Drawing else if gameActive then Halted else Rest)
        && pendingPathResets == (if gameActive then 0 else 1)
    {
      this.multiplier := multiplier;
      this.threshold := threshold;
      this.countdown := countdown;
      this.gameActive := gameActive;
      width, height := 1000.0, 400.0;
      showExplosion, hasExploded, hidePlane := false, false, false;
      progress := 0.0;
      animationKey := 0;
      startTime := None;
      samplerRunning := false;
      path := Rest;
      pendingExplosionTimers, pendingPathResets := 0, 0;
      explosions := 0;
      new;
      PathEffect(now);
      ExplosionEffect();
    }

    /**
      The body of the `[gameActive, animationKey]` effect, after the cleanup
      of its previous run has cleared the interval. With the game on it starts
      a run: the path draws from 0, the start time is re-based, the latch and
      both visibility flags are cleared and the sampler starts; the progress
      keeps its old value until the first sample. With the game off it stops
      the path and schedules its reset.
     */
    method PathEffect(now: int)
      requires Valid()
      modifies this`path, this`startTime, this`hasExploded, this`showExplosion, this`hidePlane,
        this`samplerRunning, this`pendingPathResets
      ensures Valid()
      ensures gameActive ==>
        && path == Drawing && startTime == Some(now) && samplerRunning
        && !hasExploded && !showExplosion && !hidePlane
        && pendingPathResets == old(pendingPathResets)
      ensures !gameActive ==>
        && path == Stopped(old(path)) && !samplerRunning
        && pendingPathResets == old(pendingPathResets) + 1
        && startTime == old(startTime)
        && hasExploded == old(hasExploded) && showExplosion == old(showExplosion)
        && hidePlane == old(hidePlane)
    {
      samplerRunning := false;
      if gameActive {
        path := Drawing;
        startTime := Some(now);
        hasExploded, showExplosion, hidePlane := false, false, false;
        samplerRunning := true;
      } else {
        samplerRunning := false;
        path := Stopped(path);
        pendingPathResets := pendingPathResets + 1;
      }
    }

    /**
      The explosion effect: once the multiplier reaches the threshold during
      a run whose latch is open, it closes the latch, shows the explosion,
      calls `onExplode`, stops the path and schedules the 800 ms timeout.
     */
    method ExplosionEffect()
      requires Valid()
      modifies this`hasExploded, this`showExplosion, this`explosions, this`path,
        this`pendingExplosionTimers
      ensures Valid()
      ensures old(ExplosionDue()) ==>
        && hasExploded && showExplosion && explosions == old(explosions) + 1
        && path == Stopped(old(path)) && pendingExplosionTimers == old(pendingExplosionTimers) + 1
      ensures !old(ExplosionDue()) ==>
        && hasExploded == old(hasExploded) && showExplosion == old(showExplosion)
        && explosions == old(explosions) && path == old(path)
        && pendingExplosionTimers == old(pendingExplosionTimers)
    {
      if multiplier >= threshold && !hasExploded && gameActive {
        hasExploded := true;
        showExplosion := true;
        explosions := explosions + 1;
        path := Stopped(path);
        pendingExplosionTimers := pendingExplosionTimers + 1;
      }
    }

    /**
      A render with new props. The path effect runs when `gameActive`
      changed; the explosion effect runs after it (its decision depends only
      on its dependencies, so running it when none changed decides nothing new).
     */
    method SetProps(multiplier: real, threshold: real, countdown: Option<int>, gameActive: bool, now: int)
      requires Valid()
      modifies this
      ensures Valid()
      ensures this.multiplier == multiplier && this.threshold == threshold
      ensures this.countdown == countdown && this.gameActive == gameActive
      ensures width == old(width) && height == old(height) && animationKey == old(animationKey)
      ensures progress == old(progress)
      ensures
        var started := gameActive && !old(this.gameActive);
        var ended := !gameActive && old(this.gameActive);
        var fire := gameActive && multiplier >= threshold && (started || !old(hasExploded));
        && hasExploded == (fire || (!started && old(hasExploded)))
        && showExplosion == (fire || (!started && old(showExplosion)))
        && hidePlane == (!started && old(hidePlane))
        && explosions == old(explosions) + (if fire then 1 else 0)
        && pendingExplosionTimers == old(pendingExplosionTimers) + (if fire then 1 else 0)
        && pendingPathResets == old(pendingPathResets) + (if ended then 1 else 0)
        && samplerRunning == (started || (!ended && old(samplerRunning)))
        && startTime == (if started then Some(now) else old(startTime))
        && path == (if started then (if fire then Halted else Drawing)
                    else if ended || fire then Stopped(old(path))
                    else old(path))
      ensures
        var started := gameActive && !old(this.gameActive);
        var fire := gameActive && multiplier >= threshold && (started || !old(hasExploded));
        && (fire ==> !PlaneShown())
        && (started && !fire ==> PlaneShown())
        && (!gameActive ==> !PlaneShown())
    {
      var changed := gameActive != this.gameActive;
      this.multiplier := multiplier;
      this.threshold := threshold;
      this.countdown := countdown;
      this.gameActive := gameActive;
      if changed {
        PathEffect(now);
      }
      ExplosionEffect();
    }

    /**
      The ResizeObserver callback: the size is stored, and while the game is
      on the animation key is bumped, which restarts the run exactly as a
      game start does.
     */
    method Resize(newWidth: real, newHeight: real, now: int)
      requires Valid()
      modifies this
      ensures Valid()
      ensures width == newWidth && height == newHeight
      ensures multiplier == old(multiplier) && threshold == old(threshold)
      ensures countdown == old(countdown) && gameActive == old(gameActive)
      ensures progress == old(progress) && pendingPathResets == old(pendingPathResets)
      ensures animationKey == old(animationKey) + (if gameActive then 1 else 0)
      ensures !gameActive ==>
        && hasExploded == old(hasExploded) && showExplosion == old(showExplosion)
        && hidePlane == old(hidePlane) && explosions == old(explosions)
        && pendingExplosionTimers == old(pendingExplosionTimers)
        && samplerRunning == old(samplerRunning) && startTime == old(startTime)
        && path == old(path)
      ensures gameActive ==>
        var fire := multiplier >= threshold;
        && hasExploded == fire && showExplosion == fire && !hidePlane
        && explosions == old(explosions) + (if fire then 1 else 0)
        && pendingExplosionTimers == old(pendingExplosionTimers) + (if fire then 1 else 0)
        && samplerRunning && startTime == Some(now)
        && path == (if fire then Halted else Drawing)
        && PlaneShown() == !fire
    {
      width, height := newWidth, newHeight;
      if gameActive {
        animationKey := animationKey + 1;
        PathEffect(now);
      }
      ExplosionEffect();
    }

    /** One firing of the 50 ms interval: the progress is re-sampled from the start time. */
    method SampleTick(now: int)
      requires Valid()
      requires samplerRunning
      requires now >= startTime.value
      modifies this`progress
      ensures Valid()
      ensures progress == Progress(now - startTime.value)
    {
      progress := Progress(now - startTime.value);
    }

    /**
      The explosion effect's 800 ms timeout: it clears whatever interval is
      current, hides the plane and takes the explosion down.
     */
    method ExplosionTimerFires()
      requires Valid()
      requires pendingExplosionTimers > 0
      modifies this`samplerRunning, this`hidePlane, this`showExplosion, this`pendingExplosionTimers
      ensures Valid()
      ensures !samplerRunning && hidePlane && !showExplosion && !PlaneShown()
      ensures pendingExplosionTimers == old(pendingExplosionTimers) - 1
    {
      samplerRunning := false;
      hidePlane := true;
      showExplosion := false;
      pendingExplosionTimers := pendingExplosionTimers - 1;
    }

    /** The path effect's 800 ms timeout: the path is set back to length 0. */
    method PathResetTimerFires()
      requires Valid()
      requires pendingPathResets > 0
      modifies this`path, this`pendingPathResets
      ensures Valid()
      ensures path == Rest
      ensures pendingPathResets == old(pendingPathResets) - 1
    {
      path := Rest;
      pendingPathResets := pendingPathResets - 1;
    }
  }
}
