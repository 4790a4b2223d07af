# Particle background engine

This project models the animated particle background of the site's `script.js`. A pool of
point particles drifts across a canvas. Each frame, the engine draws lines between nearby
pairs of particles and adapts the size of the pool to the measured frame time.

The model has four modules:

- `Particles` (`particles.dfy`): one particle. The six random draws of a reset, the ranges a
  reset produces, and the motion step. A particle outside the closed box
  `[0, width] x [0, height]` after moving is respawned, not clamped. The `Particle` class
  holds the mutable fields `x, y, vx, vy, size, alpha`.
- `Density` (`density.dfy`): the pure sizing rules. These are the width buckets of
  `getParticleCount`, the hysteresis decision of `adjustParticleDensity`, and the invariant
  that the pool length stays a multiple of 5 in `[45, 150]`.
- `Connections` (`connections.dfy`): which lines a connection pass draws, as the sequence of
  index pairs `(i, j)` in drawing order. `NearFrom` is an independent reference definition,
  and lemmas relate the nested scan to it.
- `Background` (`background.dfy`): the class `Engine`. It holds the script's globals
  (`particles`, `qualityLevel`, `lastFrameTime`, `connectionFrameToggle` and the canvas size)
  and its methods are the operations that change them: bootstrap, `resizeCanvas`,
  `initParticles`, `connectParticles`, `adjustParticleDensity` and `animate`.

Numbers: coordinates, velocities, timestamps and `frameInterval` (= 1000/120) are `real`.
The canvas width and height are `nat`. Each `Math.random()` result is an arbitrary value in
`[0, 1)`. `Particle.Reset`/`Update` take those values as a `Draw` parameter, and the pool
operations obtain each `Draw` from `DrawRandom`, which may return any valid draw.

Behaviour taken from the code:

- The bounds test uses `<` and `>` (script.js:44-47), so a particle that lands exactly on an
  edge keeps its moved position.
- The growth test is `length < 150` before pushing 5 (script.js:102). The pool therefore stays
  within 150 only because every length it can have is a multiple of 5 (`Density.SizeInvariant`).
- A width of 0 (or any width up to 900) gives 65 particles (script.js:65).
- `resizeCanvas` rebuilds the pool only when it is non-empty (script.js:20). The first call,
  made while the pool is still empty, only sets the canvas size. The pool is first built by the
  call at script.js:127.

## Model

| member | source | states |
|---|---|---|
| `Particles.FromDraw` | script.js:32-39 | a reset puts x in [0,w) and y in [0,h) (exactly 0 on a zero-length axis), vx and vy in [-0.3,0.3), size in [0.5,2.5) and alpha in [0.2,0.8) |
| `Particles.DrawFor` | script.js:32-39 | inverse of `FromDraw`: every state inside those ranges comes from some valid draw, so the ranges are exactly the possible reset results |
| `Particles.DrawRandom` | script.js:33-38 | the six `Math.random()` calls of a reset yield an arbitrary draw with every component in [0,1) |
| `Particles.Step` | script.js:40-51 | after one step the particle either sits at exactly `(x+vx, y+vy)`, when that point is in the closed box, or is freshly reset within the reset ranges; either way it lies in the box |
| `Particles.StepOutcomeIsReachable` | script.js:40-51 | every outcome `StepOutcome` allows is produced by `Step` for some draw, so `StepOutcome` is exact |
| `Particles.Particle.constructor` | script.js:29-31 | a new particle's state is the reset state of its draw |
| `Particles.Particle.Reset` | script.js:32-39 | all six fields are replaced by the reset state of the draw, for the current canvas size |
| `Particles.Particle.Update` | script.js:40-51 | the new state is `Step` of the old state |
| `Particles.NewParticles` | script.js:70 | `count` new, pairwise distinct particles, each in the reset ranges |
| `Density.ParticleCount` | script.js:60-66 | every pool size a rebuild produces is a multiple of 5 in [45,150] |
| `Density.ParticleCountBuckets` | script.js:62-65 | 140 exactly for width > 1600, 115 exactly for 1200 < width <= 1600, 90 exactly for 900 < width <= 1200, 65 exactly for width <= 900 (including 0) |
| `Density.ParticleCountMonotone` | script.js:60-66 | a wider canvas never gets fewer particles |
| `Density.Decide` | script.js:99-105 | the two guards as written, shrink tested first (the else-if); their meaning as three if-and-only-ifs is proved in `DecideCases`, the dead band in `Hysteresis` |
| `Density.SizeAfter` | script.js:100-103 | the pool length after `splice(-5)` (shrink) or pushing 5 (grow); that it keeps a valid length valid is proved in `SizeInvariant` and its use by the engine in `Background.Engine.AdjustParticleDensity` |
| `Density.QualityAfter` | script.js:101-104 | `qualityLevel` becomes low on shrink and high on grow and is otherwise kept; the engine's use of it is in `Background.Engine.AdjustParticleDensity` |
| `Density.DecideCases` | script.js:98-106 | the controller shrinks if and only if delta > 1.25 x frameInterval and length > 45; otherwise it grows if and only if delta < 0.9 x frameInterval and length < 150; it keeps the pool if and only if neither guard holds |
| `Density.Hysteresis` | script.js:99-106 | no change for any delta in [0.9, 1.25] x frameInterval |
| `Density.SizeInvariant` | script.js:98-106 | a length that is a multiple of 5 in [45,150] (every count of script.js:62-65 is one, by `ParticleCount`'s contract) stays one after the controller acts, because the shrink guard needs more than 45 and the grow guard less than 150 |
| `Density.SlowFramesShrinkToFloor` | script.js:99-101 | k calls with delta = 2 x frameInterval leave max(45, n - 5k) particles |
| `Density.FastFramesGrowToCeiling` | script.js:102-105 | k calls with delta = 0.5 x frameInterval leave min(150, n + 5k) particles |
| `Connections.ConnectionDistance` | script.js:75 | the connection distance as written, 120 at high and 80 at low quality; used by `PerParticleSelection` and `ConnectionPairsSound` |
| `Connections.MaxConnections` | script.js:76 | the per-particle budget as written, 12 at high and 8 at low quality; `PerParticleSelection` proves it caps each particle's lines |
| `Connections.SquaredDistance` | script.js:80-82 | `dx * dx + dy * dy` as written; the lemmas compare it with the squared connection distance |
| `Connections.Row` | script.js:79-93 | the inner scan as written, with its budget test in the loop condition; its properties are proved in `RowShape`, `RowSound` and `RowIsCappedScan` |
| `Connections.PairsFrom` | script.js:77-94 | the outer scan from particle i on, as written; its properties are proved in `PairsFromShape`, `PairsFromSound` and `SourceOfPairsFrom` |
| `Connections.ConnectionPairs` | script.js:77-94 | every line of one pass in drawing order; its properties are proved in `PerParticleSelection`, `ConnectionPairsSound` and `NoPairsBelowTwo`, and `Background.Engine.ScanConnections` is proved equal to it |
| `Connections.NearFrom` | script.js:79-83 | reference list: exactly the indices k >= j whose squared distance to particle i is below D², in strictly increasing order |
| `Connections.RowShape` | script.js:78-79 | the inner scan draws at most `maxConnections` lines, all from i to some later index |
| `Connections.RowSound` | script.js:79-83 | every line of the inner scan goes to a particle closer than the connection distance |
| `Connections.PairsFromShape` | script.js:77-79 | each line drawn by the outer scan joins a lower index to a higher one |
| `Connections.PairsFromSound` | script.js:77-93 | every drawn pair (i, j) has i < j and squared distance < D² |
| `Connections.RowIsCappedScan` | script.js:78-93 | the inner scan for i draws exactly the first min(budget, k) near particles, in index order |
| `Connections.PerParticleSelection` | script.js:75-94 | the lines counted against particle i are exactly (i, j) for the first min(k, 12) near j (high quality) or min(k, 8) near j (low quality), in increasing j, with D = 120 or 80 |
| `Connections.ConnectionPairsSound` | script.js:75-93 | any drawn pair has i < j < length and squared distance strictly below the quality's D² |
| `Connections.NoPairsBelowTwo` | script.js:77-79 | a pool of fewer than two particles draws no line |
| `Background.Engine.constructor` | script.js:3-127 | page load: the globals of lines 3-11 (quality high, `lastFrameTime` 0, latch clear), the first `resizeCanvas()` of line 26 (which sets the size and leaves the empty pool alone) and the `initParticles()` of line 127, giving a pool of `ParticleCount(width)` fresh particles |
| `Background.Throttled` | script.js:110-111 | the skip test `delta < frameInterval` as written; `Background.Engine.Animate` states what a skipped tick leaves alone |
| `Background.Engine.InitParticles` | script.js:68-71 | the pool becomes `ParticleCount(width)` fresh, distinct particles in the reset ranges |
| `Background.Engine.ResizeCanvas` | script.js:17-23 | the canvas takes the new size; an empty pool stays empty and a non-empty pool is rebuilt with `ParticleCount(newWidth)` fresh particles; a valid pool size stays valid |
| `Background.Engine.ScanConnections` | script.js:77-94 | the nested scan returns exactly `ConnectionPairs` of the current particle states and quality |
| `Background.Engine.ScanRow` | script.js:78-93 | the inner loop with its `connections` counter returns exactly the row of pairs for particle i |
| `Background.Engine.ConnectParticles` | script.js:73-96 | an already set latch means no lines; otherwise the lines are `ConnectionPairs`; the latch is set afterwards either way |
| `Background.Engine.AdjustParticleDensity` | script.js:98-106 | shrink drops exactly the last 5 particles and keeps the prefix, quality becomes low; grow keeps all particles and appends 5 fresh ones in the reset ranges, quality becomes high; otherwise pool and quality are unchanged |
| `Background.Engine.AdvanceAll` | script.js:118-121 | every particle of the pool takes exactly one `StepOutcome` step; the pool itself is unchanged |
| `Background.Engine.DrawFrame` | script.js:115-124 | a drawn frame advances every particle, draws `ConnectionPairs` of the advanced states at the old quality, applies the controller to the delta, and ends with the latch clear |
| `Background.Engine.Animate` | script.js:108-125 | when delta < frameInterval the pool, the particle states, the quality and `lastFrameTime` are untouched and nothing is drawn; otherwise `lastFrameTime` becomes the timestamp and the frame is drawn with that same delta; the latch is clear after every tick and a valid pool size stays valid |

## Left out

- Drawing: `Particle.draw`, `clearRect`, the `ctx` stroke and fill calls and the rgba style strings. A pass models what it draws as the list of index pairs.
- Line opacity `1 - sqrt(dist)/D` (script.js:84): it needs a floating-point square root, which is not modelled.
- Floating-point rounding and the probability distribution of `Math.random`. All arithmetic is exact over `real`, and a random value is any value in [0,1).
- `requestAnimationFrame`, the `animationFrame` handle and the `resize` listener. One call of `Animate` is one tick, and a resize is a call of `ResizeCanvas` between ticks.
- The default argument of `animate(timestamp = 0)` (script.js:108): both `requestAnimationFrame` call sites (script.js:109, 128) always pass a timestamp, so `Animate` takes it as a required parameter and no behaviour is lost.
- The scroll-reveal observer, the `transitionend` handlers and the page loader (script.js:130-171): DOM and CSS wiring.
- The translation table with `applyTranslations` and `initLanguageSwitcher` (script.js:173-454), and the mobile menu `initMenuToggle` (script.js:456-486): static text and CSS class toggles on DOM nodes.
- Background.Engine.AdvanceAll: states each particle's outcome through `StepOutcome` (moved in place, or reset within the reset ranges) instead of naming the draw that was used; `Particles.StepOutcomeIsReachable` shows that these are exactly the outcomes the source allows.
