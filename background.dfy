/** The animated background: the script's global state and the operations that change
    it (bootstrap, resize, one animation tick, the connection pass and the density
    controller). */
module Background {
  import opened Particles
  import opened Density
  import opened Connections

  /** A tick that comes less than one frame interval after the last drawn frame is skipped. */
  predicate Throttled(timestamp: real, lastFrameTime: real)
  {
    timestamp - lastFrameTime < FrameInterval
  }

  /** How the controller's action reshapes the pool: shrinking drops the last batch,
      growing keeps the existing particles in front of one new batch. */
  ghost predicate Adjusted(before: seq<Particle>, after: seq<Particle>, a: Action)
  {
    match a
    case Shrink => |before| >= Batch && after == before[..|before| - Batch]
    case Grow => |after| == |before| + Batch && after[..|before|] == before
    case Keep => after == before
  }

  /** Every particle state of `after` is one step from the one at the same index in `before`. */
  predicate Advanced(before: seq<ParticleState>, after: seq<ParticleState>, w: nat, h: nat)
  {
    |before| == |after| && forall k :: 0 <= k < |before| ==> StepOutcome(before[k], after[k], w, h)
  }

  class Engine {
    /** `canvas.width` and `canvas.height`. */
    var width: nat
    var height: nat
    var particles: seq<Particle>
    var qualityLevel: Quality
    var lastFrameTime: real
    /** Set by a connection pass, cleared at the end of every tick. */
    var connectionFrameToggle: bool

    ghost predicate Valid()
      reads this
    {
      Distinct(particles)
    }

    ghost function Pool(): set<Particle>
      reads this
    {
      set p | p in particles
    }

    /** The particles' states, in pool order. */
    function States(): seq<ParticleState>
      reads this, Pool()
    {
      StatesOf(particles)
    }

    /** Page load: the globals' initial values, a first resize (which leaves the still empty
        pool alone) and then a first full build of the pool. */
    constructor (w: nat, h: nat)
      ensures Valid() && width == w && height == h
      ensures qualityLevel == High && lastFrameTime == 0.0 && !connectionFrameToggle
      ensures |particles| == ParticleCount(w) && SizeOk(|particles|)
      ensures forall p :: p in particles ==> fresh(p)
      ensures forall k :: 0 <= k < |particles| ==> InResetRanges(particles[k].State(), w, h)
    {
      width, height := w, h;
      particles := [];
      qualityLevel := High;
      lastFrameTime := 0.0;
      connectionFrameToggle := false;
      new;
      InitParticles();
    }

    /** Replaces the whole pool by `ParticleCount(width)` new particles. */
    method InitParticles()
      modifies this`particles
      ensures Valid()
      ensures |particles| == ParticleCount(width)
      ensures forall p :: p in particles ==> fresh(p)
      ensures forall k :: 0 <= k < |particles| ==> InResetRanges(particles[k].State(), width, height)
    {
      particles := NewParticles(ParticleCount(width), width, height);
    }

    /** The canvas takes the new window size; a non-empty pool is rebuilt for it. */
    method ResizeCanvas(w: nat, h: nat)
      requires Valid()
      modifies this`width, this`height, this`particles
      ensures Valid() && width == w && height == h
      ensures old(particles) == [] ==> particles == []
      ensures old(particles) != [] ==>
        && |particles| == ParticleCount(w)
        && (forall p :: p in particles ==> fresh(p))
        && (forall k :: 0 <= k < |particles| ==> InResetRanges(particles[k].State(), w, h))
      ensures SizeOk(|old(particles)|) ==> SizeOk(|particles|)
    {
      width, height := w, h;
      if |particles| > 0 {
        InitParticles();
      }
    }

    /** The lines one connection pass draws for the current pool and quality. */
    method ScanConnections() returns (lines: seq<(nat, nat)>)
      ensures lines == ConnectionPairs(States(), qualityLevel)
    {
      ghost var ps, q := States(), qualityLevel;
      lines := [];
      var i := 0;
      while i < |particles|
        invariant 0 <= i <= |particles| == |ps|
        invariant lines + PairsFrom(ps, i, q) == ConnectionPairs(ps, q)
      {
        var row := ScanRow(i);
        assert lines + PairsFrom(ps, i, q) == (lines + row) + PairsFrom(ps, i + 1, q);
        lines := lines + row;
        i := i + 1;
      }
    }

    /** The inner scan of the connection pass: the lines drawn from particle `i`, with
        the per-particle connection budget. */
    method ScanRow(i: nat) returns (row: seq<(nat, nat)>)
      requires i < |particles|
      ensures row == Row(States(), i, i + 1, MaxConnections(qualityLevel), qualityLevel)
    {
      ghost var ps, q := States(), qualityLevel;
      var connectionDistance := ConnectionDistance(qualityLevel);
      var maxConnections := MaxConnections(qualityLevel);
      row := [];
      var connections := 0;
      var j := i + 1;
      while j < |particles| && connections < maxConnections
        invariant i + 1 <= j <= |particles| == |ps|
        invariant connections <= maxConnections
        invariant row + Row(ps, i, j, maxConnections - connections, q)
                  == Row(ps, i, i + 1, maxConnections, q)
      {
        var dist := SquaredDistance(particles[i].State(), particles[j].State());
        assert particles[i].State() == ps[i] && particles[j].State() == ps[j];
        if dist < connectionDistance * connectionDistance {
          row := row + [(i, j)];
          connections := connections + 1;
        }
        j := j + 1;
      }
    }

    /** The connection pass, guarded by the per-tick latch. */
    method ConnectParticles() returns (lines: seq<(nat, nat)>)
      modifies this`connectionFrameToggle
      ensures connectionFrameToggle
      ensures lines == if old(connectionFrameToggle) then [] else ConnectionPairs(States(), qualityLevel)
    {
      if connectionFrameToggle {
        return [];
      }
      lines := ScanConnections();
      connectionFrameToggle := true;
    }

    /** The density controller for the latest frame delta. */
    method AdjustParticleDensity(delta: real)
      requires Valid()
      modifies this`particles, this`qualityLevel
      ensures Valid()
      ensures Adjusted(old(particles), particles, Decide(delta, |old(particles)|))
      ensures qualityLevel == QualityAfter(old(qualityLevel), Decide(delta, |old(particles)|))
      ensures |particles| == SizeAfter(|old(particles)|, Decide(delta, |old(particles)|))
      ensures forall k :: |old(particles)| <= k < |particles| ==>
        fresh(particles[k]) && InResetRanges(particles[k].State(), width, height)
    {
      if delta > FrameInterval * 1.25 && |particles| > MinParticles {
        particles := particles[..|particles| - Batch];
        qualityLevel := Low;
      } else if delta < FrameInterval * 0.9 && |particles| < MaxParticles {
        ghost var before := particles;
        var born := NewParticles(Batch, width, height);
        particles := particles + born;
        forall k | |before| <= k < |particles|
          ensures fresh(particles[k]) && InResetRanges(particles[k].State(), width, height)
        {
          assert particles[k] == born[k - |before|] && born[k - |before|] in born;
        }
        forall a, b | 0 <= a < |before| && 0 <= b < |born|
          ensures before[a] != born[b]
        {
          assert born[b] in born;
        }
        qualityLevel := High;
      }
    }

    /** `particles.forEach(p => p.update())`: every particle takes one motion step. */
    method AdvanceAll()
      requires Valid()
      modifies Pool()
      ensures Advanced(old(States()), States(), width, height)
    {
      var i := 0;
      while i < |particles|
        invariant 0 <= i <= |particles|
        invariant forall k :: 0 <= k < i ==>
          StepOutcome(old(particles[k].State()), particles[k].State(), width, height)
        invariant forall k :: i <= k < |particles| ==> particles[k].State() == old(particles[k].State())
      {
        var d := DrawRandom();
        particles[i].Update(width, height, d);
        i := i + 1;
      }
    }

    /** The work of a tick that is not skipped: advance every particle, draw the
        connections, then let the controller react to `delta`. */
    method DrawFrame(delta: real) returns (lines: seq<(nat, nat)>)
      requires Valid()
      modifies this`particles, this`qualityLevel, this`connectionFrameToggle, Pool()
      ensures Valid() && !connectionFrameToggle
      ensures Advanced(old(States()), StatesOf(old(particles)), width, height)
      ensures lines == if old(connectionFrameToggle) then []
                       else ConnectionPairs(StatesOf(old(particles)), old(qualityLevel))
      ensures Adjusted(old(particles), particles, Decide(delta, |old(particles)|))
      ensures qualityLevel == QualityAfter(old(qualityLevel), Decide(delta, |old(particles)|))
      ensures forall k :: |old(particles)| <= k < |particles| ==>
        fresh(particles[k]) && InResetRanges(particles[k].State(), width, height)
      ensures SizeOk(|old(particles)|) ==> SizeOk(|particles|)
    {
      ghost var pool, quality := particles, qualityLevel;
      AdvanceAll();
      ghost var stepped := States();
      lines := ConnectParticles();
      assert States() == stepped;
      ghost var drawn := lines;
      assert drawn == if old(connectionFrameToggle) then [] else ConnectionPairs(stepped, quality);
      AdjustParticleDensity(delta);
      if SizeOk(|pool|) {
        SizeInvariant(delta, |pool|);
      }
      connectionFrameToggle := false;
      assert StatesOf(pool) == stepped;
    }

    /** One animation tick at `timestamp`; returns the lines it draws. */
    method Animate(timestamp: real) returns (lines: seq<(nat, nat)>)
      requires Valid()
      modifies this, Pool()
      ensures Valid() && !connectionFrameToggle
      ensures width == old(width) && height == old(height)
      ensures Throttled(timestamp, old(lastFrameTime)) ==>
        && particles == old(particles) && States() == old(States())
        && qualityLevel == old(qualityLevel) && lastFrameTime == old(lastFrameTime)
        && lines == []
      ensures !Throttled(timestamp, old(lastFrameTime)) ==>
        var a := Decide(timestamp - old(lastFrameTime), |old(particles)|);
        && lastFrameTime == timestamp
        && Advanced(old(States()), StatesOf(old(particles)), width, height)
        && lines == (if old(connectionFrameToggle) then []
                     else ConnectionPairs(StatesOf(old(particles)), old(qualityLevel)))
        && Adjusted(old(particles), particles, a)
        && qualityLevel == QualityAfter(old(qualityLevel), a)
        && (forall k :: |old(particles)| <= k < |particles| ==>
              fresh(particles[k]) && InResetRanges(particles[k].State(), width, height))
      ensures SizeOk(|old(particles)|) ==> SizeOk(|particles|)
    {
      var delta := timestamp - lastFrameTime;
      if delta < FrameInterval {
        connectionFrameToggle := false;
        return [];
      }
      lastFrameTime := timestamp;
      lines := DrawFrame(delta);
    }
  }
}
