/**
 * The `MorphingBinary` class of js/main.js: fields updated in place and a
 * fixed array of particles rewritten element by element, frame by frame.
 *
 * `Model()` reads the fields as an `Engine` value; every method is proved
 * to change that value exactly as the corresponding function of module
 * Animation says, and `Update` keeps the invariant `Inv`.
 */
module Morphing {
  import opened Geometry
  import opened Animation
  import Transitions

  class MorphingBinary {
    var particles: array<Particle>
    var currentShape: nat
    var transitionProgress: real
    var isFirstGrid: bool
    var state: Phase
    var stateStartTime: nat
    var lastFlipTime: nat
    var centerX: real
    var centerY: real
    var scale: real

    /** The animation state held in the fields and the particle array. */
    ghost function Model(): Engine
      reads this, particles
    {
      Engine(state, currentShape, stateStartTime, lastFlipTime, transitionProgress,
             isFirstGrid, particles[..], centerX, centerY, scale)
    }

    ghost predicate Valid()
      reads this, particles
    {
      Inv(Model())
    }

    /** The constructor followed by init(): fields at their initial values,
        resized to the container, particles created on the grid. */
    constructor (width: nat, height: nat, now: nat, coin: nat -> bool, sizeDraw: nat -> real)
      ensures Model() == Initial(width, height, now, coin, sizeDraw)
      ensures Valid() && fresh(particles)
    {
      particles := new Particle[0];
      currentShape := 0;
      transitionProgress := 0.0;
      isFirstGrid := true;
      state := Holding;
      stateStartTime := now;
      lastFlipTime := now;
      centerX, centerY, scale := 0.0, 0.0, 0.0;
      new;
      Resize(width, height);
      CreateParticles(coin, sizeDraw);
      Transitions.InitialState(width, height, now, coin, sizeDraw);
    }

    /** resize(): only the centre and the scale follow the container. */
    method Resize(width: nat, height: nat)
      modifies this
      ensures Model() == Resized(old(Model()), width, height)
      ensures particles == old(particles)
      ensures old(Valid()) ==> Valid()
    {
      centerX := width as real / 2.0;
      centerY := height as real / 2.0;
      scale := Min(width as real, height as real) * 0.35;
    }

    /** createParticles(): a fresh array of ParticleCount particles on the grid. */
    method CreateParticles(coin: nat -> bool, sizeDraw: nat -> real)
      modifies this
      ensures Model() == old(Model()).(particles :=
        NewParticles(GridPoints(ParticleCount, centerX, centerY, scale), centerX, centerY, coin, sizeDraw))
      ensures fresh(particles)
    {
      particles := GridParticles(centerX, centerY, scale, coin, sizeDraw);
    }
    /** updateParticleColor(p) for particle k. */
    method UpdateParticleColor(k: nat)
      requires k < particles.Length
      modifies particles
      ensures particles[..] == old(particles[..])[k := old(particles[k]).(color := ColorFor(old(particles[k]).glyph))]
    {
      var p := particles[k];
      particles[k] := p.(color := ColorFor(p.glyph));
    }

    /** One flip of the holding loop: toggle the glyph of particle k, then
        recompute its colour. */
    method FlipOne(k: nat)
      requires k < particles.Length
      modifies particles
      ensures particles[..] == old(particles[..])[k := Flip(old(particles[k]))]
    {
      var p := particles[k];
      particles[k] := p.(glyph := if p.glyph == '1' then '0' else '1');
      UpdateParticleColor(k);
    }

    /** The flip loop of a holding frame on the grid. */
    method FlipBatch(flips: seq<nat>)
      requires ValidFlips(flips, particles.Length)
      modifies particles
      ensures particles[..] == FlipAll(old(particles[..]), flips)
    {
      ghost var start := particles[..];
      for f := 0 to FlipsPerFrame
        invariant particles[..] == FlipAll(start, flips[..f])
      {
        FlipAllStep(start, flips, f);
        FlipOne(flips[f]);
      }
      assert flips[..FlipsPerFrame] == flips;
    }

    /** Every particle snapped onto its target. */
    method PinToTargets()
      modifies particles
      ensures particles[..] == PinAll(old(particles[..]))
    {
      ghost var want := PinAll(particles[..]);
      for i := 0 to particles.Length
        invariant forall k | 0 <= k < i :: particles[k] == want[k]
        invariant forall k | i <= k < particles.Length :: particles[k] == old(particles[k])
      {
        var p := particles[i];
        var q := p.(x := p.targetX, y := p.targetY);
        assert q == want[i];
        particles[i] := q;
      }
      assert particles[..] == want;
    }

    /** Every particle at start + (target - start) * t. */
    method Interpolate(t: real)
      modifies particles
      ensures particles[..] == LerpAll(old(particles[..]), t)
    {
      ghost var want := LerpAll(particles[..], t);
      for i := 0 to particles.Length
        invariant forall k | 0 <= k < i :: particles[k] == want[k]
        invariant forall k | i <= k < particles.Length :: particles[k] == old(particles[k])
      {
        particles[i] := Lerp(particles[i], t);
      }
      assert particles[..] == want;
    }

    /** The particle loop of startScattering(): each particle restarts from
        where it stands towards its own small offset. */
    method ScatterParticles(offset: nat -> Point)
      modifies particles
      ensures particles[..] == ScatterAll(old(particles[..]), offset)
    {
      ghost var want := ScatterAll(particles[..], offset);
      for i := 0 to particles.Length
        invariant forall k | 0 <= k < i :: particles[k] == want[k]
        invariant forall k | i <= k < particles.Length :: particles[k] == old(particles[k])
      {
        var p := particles[i];
        var off := offset(i);
        var q := p.(startX := p.x, startY := p.y, targetX := p.x + off.x, targetY := p.y + off.y);
        assert q == want[i];
        particles[i] := q;
      }
      assert particles[..] == want;
    }

    /** The particle loop of startForming(): each particle restarts from
        where it stands towards its point of the new shape, or the centre. */
    method FormParticles(newPositions: seq<Point>)
      modifies particles
      ensures particles[..] == FormAll(old(particles[..]), newPositions, centerX, centerY)
    {
      ghost var want := FormAll(particles[..], newPositions, centerX, centerY);
      for i := 0 to particles.Length
        invariant forall k | 0 <= k < i :: particles[k] == want[k]
        invariant forall k | i <= k < particles.Length :: particles[k] == old(particles[k])
      {
        var p := particles[i];
        var target := if i < |newPositions| then newPositions[i] else Point(centerX, centerY);
        var q := p.(startX := p.x, startY := p.y, targetX := target.x, targetY := target.y);
        assert q == want[i];
        particles[i] := q;
      }
      assert particles[..] == want;
    }

    /** startScattering(). */
    method StartScattering(now: nat, d: Draws)
      modifies this, particles
      ensures Model() == Animation.StartScattering(old(Model()), now, d)
      ensures particles == old(particles)
    {
      ScatterParticles(d.offset);
      state := Scattering;
      stateStartTime := now;
      transitionProgress := 0.0;
      isFirstGrid := false;
    }

    /** startForming(idx): the points of shape idx become the targets. */
    method StartForming(idx: nat, now: nat, d: Draws)
      modifies this, particles
      ensures Model() == Animation.StartForming(old(Model()), idx, now, d)
      ensures particles == old(particles)
    {
      var newPositions: seq<Point> := [];
      if idx < |Shapes| {
        newPositions := GetShapePoints(Shapes[idx], ParticleCount, centerX, centerY, scale,
                                       d.sample, d.jitter);
      }
      assert newPositions == ShapeAt(Model(), idx, d);
      FormParticles(newPositions);
      state := Forming;
      stateStartTime := now;
      transitionProgress := 0.0;
    }

    /** The flips of a holding frame on the grid, at most every FlipInterval ms. */
    method FlipIfDue(now: nat, d: Draws)
      requires ValidFlips(d.flips, particles.Length)
      modifies this, particles
      ensures Model() == Flipped(old(Model()), now, d)
      ensures particles == old(particles)
    {
      if currentShape == 0 && now - lastFlipTime > FlipInterval {
        FlipBatch(d.flips);
        lastFlipTime := now;
      }
    }

    /** The end of a hold: scatter, or go straight on to the next shape. */
    method EndHold(now: nat, d: Draws)
      modifies this, particles
      ensures Model() == Animation.EndHold(old(Model()), now, d)
      ensures particles == old(particles)
    {
      if ShouldScatter(currentShape) {
        StartScattering(now, d);
      } else {
        isFirstGrid := false;
        currentShape := currentShape + 1;
        StartForming(currentShape, now, d);
      }
    }

    /** The holding branch of update(). */
    method UpdateHolding(now: nat, d: Draws)
      requires state == Holding && ValidFlips(d.flips, particles.Length)
      modifies this, particles
      ensures Model() == HoldingStep(old(Model()), now, d)
      ensures particles == old(particles)
    {
      var elapsed := now - stateStartTime;
      FlipIfDue(now, d);
      if elapsed > HoldTime && !IsAtFinalShape(currentShape) {
        EndHold(now, d);
      }
      PinToTargets();
    }

    /** The end of a scatter: the next shape, cyclically, starts forming. */
    method FormNext(now: nat, d: Draws)
      modifies this, particles
      ensures var next := (old(currentShape) + 1) % |Shapes|;
        Model() == Animation.StartForming(old(Model()).(shape := next), next, now, d)
      ensures particles == old(particles)
    {
      currentShape := (currentShape + 1) % |Shapes|;
      StartForming(currentShape, now, d);
    }

    /** The motion of a scattering frame. */
    method ScatterMove(now: nat)
      modifies this, particles
      ensures Model() == ScatterMotion(old(Model()), now)
      ensures particles == old(particles)
    {
      var elapsed := now - stateStartTime;
      transitionProgress := Min(1.0, elapsed as real / ScatterTime as real);
      var t := transitionProgress;
      Interpolate(t);
    }

    /** The scattering branch of update(). */
    method UpdateScattering(now: nat, d: Draws)
      requires state == Scattering
      modifies this, particles
      ensures Model() == ScatteringStep(old(Model()), now, d)
      ensures particles == old(particles)
    {
      var elapsed := now - stateStartTime;
      ScatterMove(now);
      if elapsed > ScatterTime {
        FormNext(now, d);
      }
    }

    /** The forming branch of update(). */
    method UpdateForming(now: nat)
      requires state == Forming
      modifies this, particles
      ensures Model() == FormingStep(old(Model()), now)
      ensures particles == old(particles)
    {
      var elapsed := now - stateStartTime;
      transitionProgress := Min(1.0, elapsed as real / FormTime as real);
      var ease := EaseInOutCubic(transitionProgress);
      Interpolate(ease);
      if elapsed > FormTime {
        PinToTargets();
        state := Holding;
        stateStartTime := now;
      }
    }

    /** update(): one animation frame at time `now`; keeps the invariant. */
    method Update(now: nat, d: Draws)
      requires Valid() && ValidFlips(d.flips, particles.Length)
      modifies this, particles
      ensures Model() == Step(old(Model()), now, d)
      ensures Valid() && particles == old(particles)
    {
      match state {
        case Holding => UpdateHolding(now, d);
        case Scattering => UpdateScattering(now, d);
        case Forming => UpdateForming(now);
      }
      Transitions.StepKeepsInv(old(Model()), now, d);
    }
  }

  /** The loop of createParticles(): particle i at grid point i (or at the
      centre, were there no such point), glyph and size drawn at random. */
  method GridParticles(cx: real, cy: real, scale: real, coin: nat -> bool, sizeDraw: nat -> real)
    returns (a: array<Particle>)
    ensures fresh(a)
    ensures a[..] == NewParticles(GridPoints(ParticleCount, cx, cy, scale), cx, cy, coin, sizeDraw)
  {
    var gridPositions := GridShape(ParticleCount, cx, cy, scale);
    ghost var want := NewParticles(gridPositions, cx, cy, coin, sizeDraw);
    a := new Particle[ParticleCount];
    for i := 0 to a.Length
      invariant forall k | 0 <= k < i :: a[k] == want[k]
    {
      var pos := if i < |gridPositions| then gridPositions[i] else Point(cx, cy);
      a[i] := NewParticle(pos, coin(i), sizeDraw(i));
    }
    assert a[..] == want;
  }
}
