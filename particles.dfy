/** A single background particle: its state, the random draws that (re)initialise it,
    and the motion step that either moves it or respawns it. */
module Particles {

  /** The six `Math.random()` results one reset consumes, in source order. */
  datatype Draw = Draw(rx: real, ry: real, rvx: real, rvy: real, rsize: real, ralpha: real)
  {
    /** Every component is a uniform sample from [0, 1). */
    predicate Valid()
    {
      Unit(rx) && Unit(ry) && Unit(rvx) && Unit(rvy) && Unit(rsize) && Unit(ralpha)
    }
  }

  predicate Unit(r: real) { 0.0 <= r < 1.0 }

  /** The values of a particle's six fields. */
  datatype ParticleState = ParticleState(x: real, y: real, vx: real, vy: real, size: real, alpha: real)

  // The randomisation rule of a reset: a velocity component is (r - 0.5) * VelocitySpread,
  // the size is r * SizeSpread + MinSize, the opacity is r * AlphaSpread + MinAlpha.
  const VelocitySpread: real := 0.6
  const MaxSpeed: real := 0.3
  const SizeSpread: real := 2.0
  const MinSize: real := 0.5
  const AlphaSpread: real := 0.6
  const MinAlpha: real := 0.2

  /** `v` is a coordinate a reset can produce on an axis of length `len`:
      in [0, len), or exactly 0 when the axis has length 0. */
  predicate InSpan(v: real, len: nat)
  {
    0.0 <= v && (v < len as real || (len == 0 && v == 0.0))
  }

  /** The ranges a freshly reset particle's fields lie in. */
  predicate InResetRanges(s: ParticleState, w: nat, h: nat)
  {
    && InSpan(s.x, w) && InSpan(s.y, h)
    && -MaxSpeed <= s.vx < MaxSpeed && -MaxSpeed <= s.vy < MaxSpeed
    && MinSize <= s.size < MinSize + SizeSpread
    && MinAlpha <= s.alpha < MinAlpha + AlphaSpread
  }

  lemma ScaleBelow(r: real, len: nat)
    requires Unit(r)
    ensures InSpan(r * len as real, len)
  {
  }

  /** The state a reset on a `w` x `h` canvas gives for the draw `d`. */
  function FromDraw(d: Draw, w: nat, h: nat): (s: ParticleState)
    requires d.Valid()
    ensures InResetRanges(s, w, h)
  {
    ScaleBelow(d.rx, w);
    ScaleBelow(d.ry, h);
    ParticleState(d.rx * w as real, d.ry * h as real,
                  (d.rvx - 0.5) * VelocitySpread, (d.rvy - 0.5) * VelocitySpread,
                  d.rsize * SizeSpread + MinSize, d.ralpha * AlphaSpread + MinAlpha)
  }

  /** The draw that scales to `v` on an axis of length `len`. */
  function Ratio(v: real, len: nat): (r: real)
    requires InSpan(v, len)
    ensures Unit(r) && r * len as real == v
  {
    if len == 0 then 0.0
    else
      var r := v / len as real;
      assert r * len as real == v;
      r
  }

  /** The inverse of `FromDraw`: every state in the reset ranges is what some valid draw
      produces, so `InResetRanges` describes exactly the states a reset can give. */
  function DrawFor(s: ParticleState, w: nat, h: nat): (d: Draw)
    requires InResetRanges(s, w, h)
    ensures d.Valid() && FromDraw(d, w, h) == s
  {
    var d := Draw(Ratio(s.x, w), Ratio(s.y, h),
                  s.vx / VelocitySpread + 0.5, s.vy / VelocitySpread + 0.5,
                  (s.size - MinSize) / SizeSpread, (s.alpha - MinAlpha) / AlphaSpread);
    assert d.Valid();
    d
  }

  /** The position after adding the velocity once. */
  function Moved(s: ParticleState): ParticleState
  {
    s.(x := s.x + s.vx, y := s.y + s.vy)
  }

  /** The closed box [0, w] x [0, h]; a particle on its edge is still inside. */
  predicate InBox(s: ParticleState, w: nat, h: nat)
  {
    0.0 <= s.x <= w as real && 0.0 <= s.y <= h as real
  }

  /** What one step can do to a particle: keep the moved state when it is in the box,
      otherwise replace every field by a fresh random one. */
  predicate StepOutcome(before: ParticleState, after: ParticleState, w: nat, h: nat)
  {
    if InBox(Moved(before), w, h) then after == Moved(before) else InResetRanges(after, w, h)
  }

  /** One motion step: move by the velocity, and reset from `d` when the new position
      leaves the canvas on either axis. */
  function Step(s: ParticleState, w: nat, h: nat, d: Draw): (r: ParticleState)
    requires d.Valid()
    ensures StepOutcome(s, r, w, h)
    ensures InBox(r, w, h)
  {
    var m := Moved(s);
    if m.x < 0.0 || m.x > w as real || m.y < 0.0 || m.y > h as real then FromDraw(d, w, h) else m
  }

  /** Every outcome `StepOutcome` allows is produced by `Step` for some draw. */
  lemma StepOutcomeIsReachable(before: ParticleState, after: ParticleState, w: nat, h: nat)
    requires StepOutcome(before, after, w, h)
    ensures exists d: Draw :: d.Valid() && Step(before, w, h, d) == after
  {
    if InBox(Moved(before), w, h) {
      var d := Draw(0.0, 0.0, 0.0, 0.0, 0.0, 0.0);
      assert d.Valid() && Step(before, w, h, d) == after;
    } else {
      var d := DrawFor(after, w, h);
      assert Step(before, w, h, d) == after;
    }
  }

  /** Six calls of `Math.random()`: an arbitrary draw. */
  method DrawRandom() returns (d: Draw)
    ensures d.Valid()
  {
    assert Draw(0.0, 0.0, 0.0, 0.0, 0.0, 0.0).Valid();
    d :| d.Valid();
  }

  class Particle {
    var x: real
    var y: real
    var vx: real
    var vy: real
    var size: real
    var alpha: real

    function State(): ParticleState
      reads this
    {
      ParticleState(x, y, vx, vy, size, alpha)
    }

    /** A new particle is reset once on creation. */
    constructor (w: nat, h: nat, d: Draw)
      requires d.Valid()
      ensures State() == FromDraw(d, w, h)
    {
      new;
      Reset(w, h, d);
    }

    method Reset(w: nat, h: nat, d: Draw)
      requires d.Valid()
      modifies this
      ensures State() == FromDraw(d, w, h)
    {
      x := d.rx * w as real;
      y := d.ry * h as real;
      vx := (d.rvx - 0.5) * VelocitySpread;
      vy := (d.rvy - 0.5) * VelocitySpread;
      size := d.rsize * SizeSpread + MinSize;
      alpha := d.ralpha * AlphaSpread + MinAlpha;
    }

    /** Moves by the velocity; `d` is consumed only when the particle has to be reset. */
    method Update(w: nat, h: nat, d: Draw)
      requires d.Valid()
      modifies this
      ensures State() == Step(old(State()), w, h, d)
    {
      x := x + vx;
      y := y + vy;
      if x < 0.0 || x > w as real || y < 0.0 || y > h as real {
        Reset(w, h, d);
      }
    }
  }

  /** No particle object occurs twice in the pool. */
  ghost predicate Distinct(ps: seq<Particle>)
  {
    forall i, j :: 0 <= i < |ps| && 0 <= j < |ps| && i != j ==> ps[i] != ps[j]
  }

  /** The states of the particles of a pool, in pool order. */
  function StatesOf(ps: seq<Particle>): (r: seq<ParticleState>)
    reads ps
    ensures |r| == |ps|
    ensures forall k :: 0 <= k < |ps| ==> r[k] == ps[k].State()
  {
    seq(|ps|, k requires 0 <= k < |ps| reads ps => ps[k].State())
  }

  /** `Array.from({ length: count }, () => new Particle())`. */
  method NewParticles(count: nat, w: nat, h: nat) returns (ps: seq<Particle>)
    ensures |ps| == count && Distinct(ps)
    ensures forall p :: p in ps ==> fresh(p)
    ensures forall k :: 0 <= k < count ==> InResetRanges(ps[k].State(), w, h)
  {
    ps := [];
    while |ps| < count
      invariant |ps| <= count && Distinct(ps)
      invariant forall p :: p in ps ==> fresh(p)
      invariant forall k :: 0 <= k < |ps| ==> InResetRanges(ps[k].State(), w, h)
    {
      var d := DrawRandom();
      var p := new Particle(w, h, d);
      ps := ps + [p];
    }
  }
}
