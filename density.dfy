/** Population sizing and the frame-time driven density controller, as pure rules over
    the pool length; the Engine in module Background applies them to the pool. */
module Density {

  const MinParticles: nat := 45
  const MaxParticles: nat := 150
  /** How many particles the controller removes or adds at once. */
  const Batch: nat := 5

  /** The target frame interval in milliseconds, for 120 frames per second. */
  const FrameInterval: real := 1000.0 / 120.0

  /** `qualityLevel`: 1 is High and 0 is Low. */
  datatype Quality = Low | High

  /** A pool length the controller keeps: a multiple of the batch in [45, 150]. */
  predicate SizeOk(n: nat)
  {
    n % Batch == 0 && MinParticles <= n <= MaxParticles
  }

  /** The population a full rebuild creates for a canvas of the given width. */
  function ParticleCount(width: int): (n: nat)
    ensures SizeOk(n)
  {
    if width > 1600 then 140
    else if width > 1200 then 115
    else if width > 900 then 90
    else 65
  }

  /** Each bucket of `ParticleCount`, stated as which widths give it. */
  lemma ParticleCountBuckets(width: int)
    ensures ParticleCount(width) == 140 <==> 1600 < width
    ensures ParticleCount(width) == 115 <==> 1200 < width <= 1600
    ensures ParticleCount(width) == 90 <==> 900 < width <= 1200
    ensures ParticleCount(width) == 65 <==> width <= 900
  {
  }

  /** A wider canvas never gets fewer particles. */
  lemma ParticleCountMonotone(w1: int, w2: int)
    requires w1 <= w2
    ensures ParticleCount(w1) <= ParticleCount(w2)
  {
  }

  /** What the controller does for one tick. */
  datatype Action = Shrink | Grow | Keep

  /** The controller's decision for the latest frame delta and the current pool length. */
  function Decide(delta: real, n: nat): Action
  {
    if delta > FrameInterval * 1.25 && n > MinParticles then Shrink
    else if delta < FrameInterval * 0.9 && n < MaxParticles then Grow
    else Keep
  }

  /** The pool length after the action. */
  function SizeAfter(n: nat, a: Action): nat
  {
    match a
    case Shrink => if n >= Batch then n - Batch else 0
    case Grow => n + Batch
    case Keep => n
  }

  /** `qualityLevel` after the action. */
  function QualityAfter(q: Quality, a: Action): Quality
  {
    match a
    case Shrink => Low
    case Grow => High
    case Keep => q
  }

  /** The controller's decision as an if-and-only-if per action: it shrinks exactly on a
      slow frame above the floor, grows exactly on a fast frame below the ceiling (when it
      does not shrink), and keeps the pool exactly when neither holds. */
  lemma DecideCases(delta: real, n: nat)
    ensures Decide(delta, n) == Shrink <==> delta > FrameInterval * 1.25 && n > MinParticles
    ensures Decide(delta, n) == Grow <==>
      !(delta > FrameInterval * 1.25 && n > MinParticles) && delta < FrameInterval * 0.9 && n < MaxParticles
    ensures Decide(delta, n) == Keep <==>
      !(delta > FrameInterval * 1.25 && n > MinParticles) && !(delta < FrameInterval * 0.9 && n < MaxParticles)
  {
  }

  /** No action inside the hysteresis band [0.9, 1.25] x frameInterval. */
  lemma Hysteresis(delta: real, n: nat)
    requires FrameInterval * 0.9 <= delta <= FrameInterval * 1.25
    ensures Decide(delta, n) == Keep
  {
  }

  /** The controller keeps a valid pool length valid. */
  lemma SizeInvariant(delta: real, n: nat)
    requires SizeOk(n)
    ensures SizeOk(SizeAfter(n, Decide(delta, n)))
  {
  }

  /** The pool length after `k` consecutive controller calls with the same delta. */
  function Repeat(n: nat, delta: real, k: nat): nat
    decreases k
  {
    if k == 0 then n else Repeat(SizeAfter(n, Decide(delta, n)), delta, k - 1)
  }

  /** Slow frames (twice the interval) shrink the pool by 5 per call down to the floor,
      and then leave it alone. */
  lemma {:induction false} SlowFramesShrinkToFloor(n: nat, k: nat)
    requires SizeOk(n)
    ensures Repeat(n, 2.0 * FrameInterval, k) ==
            if n - Batch * k >= MinParticles then n - Batch * k else MinParticles
    decreases k
  {
    if k > 0 {
      var n' := SizeAfter(n, Decide(2.0 * FrameInterval, n));
      SizeInvariant(2.0 * FrameInterval, n);
      SlowFramesShrinkToFloor(n', k - 1);
    }
  }

  /** Fast frames (half the interval) grow the pool by 5 per call up to the ceiling,
      and then leave it alone. */
  lemma {:induction false} FastFramesGrowToCeiling(n: nat, k: nat)
    requires SizeOk(n)
    ensures Repeat(n, 0.5 * FrameInterval, k) ==
            if n + Batch * k <= MaxParticles then n + Batch * k else MaxParticles
    decreases k
  {
    if k > 0 {
      var n' := SizeAfter(n, Decide(0.5 * FrameInterval, n));
      SizeInvariant(0.5 * FrameInterval, n);
      FastFramesGrowToCeiling(n', k - 1);
    }
  }
}
