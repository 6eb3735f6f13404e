/**
 * What the frames of the morphing animation guarantee: the invariant every
 * frame keeps, the order in which the shapes are visited, the phase ends,
 * the frozen final shape and the easing curve.
 */
module Transitions {
  import opened Geometry
  import opened Animation

  // ---------------------------------------------------------------------
  // Moves of the particle sequence
  // ---------------------------------------------------------------------

  /** Moving or retargeting particles keeps every glyph coupled to its colour. */
  lemma MovesKeepCoupling(ps: seq<Particle>, r: seq<Particle>)
    requires AllCoupled(ps) && |r| == |ps|
    requires forall i | 0 <= i < |ps| :: Moved(ps[i], r[i]) || Retargeted(ps[i], r[i])
    ensures AllCoupled(r)
  {
    forall i | 0 <= i < |r|
      ensures Coupled(r[i])
    {
      assert Coupled(ps[i]);
      assert r[i].glyph == ps[i].glyph && r[i].color == ps[i].color;
    }
  }

  /** Pinning twice is pinning once. */
  lemma PinAllIdempotent(ps: seq<Particle>)
    ensures PinAll(PinAll(ps)) == PinAll(ps)
  {
    var once := PinAll(ps);
    forall i | 0 <= i < |ps|
      ensures PinAll(once)[i] == once[i]
    {
      assert AtTarget(once[i]);
    }
  }

  /** At t = 1 every particle is exactly on its target, at t = 0 on its start. */
  lemma LerpAllEnds(ps: seq<Particle>)
    ensures AllAtTarget(LerpAll(ps, 1.0))
    ensures forall i | 0 <= i < |ps| ::
      LerpAll(ps, 0.0)[i].x == ps[i].startX && LerpAll(ps, 0.0)[i].y == ps[i].startY
  {
    forall i | 0 <= i < |ps|
      ensures AtTarget(LerpAll(ps, 1.0)[i])
    {
      var p := ps[i];
      assert LerpAll(ps, 1.0)[i].x == p.startX + (p.targetX - p.startX) * 1.0;
      assert LerpAll(ps, 1.0)[i].y == p.startY + (p.targetY - p.startY) * 1.0;
    }
  }

  // ---------------------------------------------------------------------
  // The invariant
  // ---------------------------------------------------------------------

  /** The constructor's state: 400 particles at rest on the grid, each glyph
      coupled to its colour and '1' exactly where the coin said so. */
  lemma InitialState(width: nat, height: nat, now: nat, coin: nat -> bool, sizeDraw: nat -> real)
    ensures var e := Initial(width, height, now, coin, sizeDraw);
      && Inv(e) && e.phase == Holding && e.firstGrid && e.progress == 0.0
      && AllAtTarget(e.particles)
      && forall i | 0 <= i < ParticleCount ::
           var p := e.particles[i];
           var g := GridPoints(ParticleCount, e.cx, e.cy, e.scale)[i];
           && p.x == p.startX == p.targetX == g.x
           && p.y == p.startY == p.targetY == g.y
           && (p.glyph == '1' <==> coin(i))
  {
    var e := Initial(width, height, now, coin, sizeDraw);
    var pts := GridPoints(ParticleCount, e.cx, e.cy, e.scale);
    assert e.particles == NewParticles(pts, e.cx, e.cy, coin, sizeDraw);
    forall i | 0 <= i < ParticleCount
      ensures e.particles[i] == NewParticle(pts[i], coin(i), sizeDraw(i))
    {
    }
  }

  /** Every frame keeps the invariant. */
  lemma StepKeepsInv(e: Engine, now: nat, d: Draws)
    requires Inv(e) && ValidFlips(d.flips, |e.particles|)
    ensures Inv(Step(e, now, d))
  {
    match e.phase
    case Holding => HoldingKeepsInv(e, now, d);
    case Scattering => ScatteringKeepsInv(e, now, d);
    case Forming => FormingKeepsInv(e, now);
  }

  lemma HoldingKeepsInv(e: Engine, now: nat, d: Draws)
    requires Inv(e) && e.phase == Holding && ValidFlips(d.flips, |e.particles|)
    ensures Inv(HoldingStep(e, now, d))
  {
    var e1 := Flipped(e, now, d);
    if e.shape == 0 && now - e.lastFlip > FlipInterval {
      FlipAllKeeps(e.particles, d.flips);
    }
    assert AllCoupled(e1.particles);
    var elapsed := now - e.stateStart;
    var e2 :=
      if elapsed > HoldTime && !IsAtFinalShape(e1.shape) then
        if ShouldScatter(e1.shape) then StartScattering(e1, now, d)
        else StartForming(e1.(firstGrid := false, shape := e1.shape + 1), e1.shape + 1, now, d)
      else e1;
    MovesKeepCoupling(e1.particles, e2.particles);
    MovesKeepCoupling(e2.particles, PinAll(e2.particles));
  }

  lemma ScatteringKeepsInv(e: Engine, now: nat, d: Draws)
    requires Inv(e) && e.phase == Scattering
    ensures Inv(ScatteringStep(e, now, d))
  {
    var elapsed := now - e.stateStart;
    var t := Min(1.0, elapsed as real / ScatterTime as real);
    var e1 := e.(progress := t, particles := LerpAll(e.particles, t));
    MovesKeepCoupling(e.particles, e1.particles);
    if elapsed > ScatterTime {
      var next := (e1.shape + 1) % |Shapes|;
      var e2 := e1.(shape := next);
      MovesKeepCoupling(e2.particles, StartForming(e2, next, now, d).particles);
    }
  }

  lemma FormingKeepsInv(e: Engine, now: nat)
    requires Inv(e) && e.phase == Forming
    ensures Inv(FormingStep(e, now))
  {
    var elapsed := now - e.stateStart;
    var t := Min(1.0, elapsed as real / FormTime as real);
    var e1 := e.(progress := t, particles := LerpAll(e.particles, EaseInOutCubic(t)));
    MovesKeepCoupling(e.particles, e1.particles);
    MovesKeepCoupling(e1.particles, PinAll(e1.particles));
  }

  // ---------------------------------------------------------------------
  // The shape sequence
  // ---------------------------------------------------------------------

  /** A frame either keeps the shape index or moves it one shape on: the
      index never wraps back to the grid (the modulo in the scattering
      branch is never reached with the last index). */
  lemma ShapeAdvancesByOne(e: Engine, now: nat, d: Draws)
    requires Inv(e) && ValidFlips(d.flips, |e.particles|)
    ensures var r := Step(e, now, d);
      r.shape == e.shape || (r.shape == e.shape + 1 && r.phase == Forming)
  {
    match e.phase
    case Holding => HoldingTransition(e, now, d);
    case Scattering =>
      if now - e.stateStart > ScatterTime {
        ScatterEnds(e, now, d);
      }
    case Forming =>
  }

  /** The end of a hold. After HoldTime, except on the final shape, the
      grid and the galaxy go straight on to forming the next shape while the
      silhouette and the kidney scatter first; otherwise the machine keeps
      holding. Either way every particle ends the frame on its target. */
  lemma HoldingTransition(e: Engine, now: nat, d: Draws)
    requires Inv(e) && e.phase == Holding && ValidFlips(d.flips, |e.particles|)
    ensures var r := Step(e, now, d);
      && AllAtTarget(r.particles)
      && (now - e.stateStart > HoldTime && e.shape != FinalShape && ShouldScatter(e.shape) ==>
            r.phase == Scattering && r.shape == e.shape && r.stateStart == now && r.progress == 0.0)
      && (now - e.stateStart > HoldTime && e.shape != FinalShape && !ShouldScatter(e.shape) ==>
            r.phase == Forming && r.shape == e.shape + 1 && r.stateStart == now && r.progress == 0.0)
      && (now - e.stateStart <= HoldTime || e.shape == FinalShape ==>
            r.phase == Holding && r.shape == e.shape && r.stateStart == e.stateStart)
  {
  }

  /** A hold that ends without a scatter: the next shape starts forming,
      each particle starting from where it stands and heading for point i of
      the next shape (there is one for every particle). */
  lemma HoldingFormsNext(e: Engine, now: nat, d: Draws)
    requires Inv(e) && e.phase == Holding && ValidFlips(d.flips, |e.particles|)
    requires now - e.stateStart > HoldTime && e.shape != FinalShape && !ShouldScatter(e.shape)
    ensures var r := Step(e, now, d);
      var pts := ShapeAt(e, e.shape + 1, d);
      && r.phase == Forming && r.shape == e.shape + 1 && !r.firstGrid
      && forall i | 0 <= i < |e.particles| ::
           && r.particles[i].startX == e.particles[i].x && r.particles[i].startY == e.particles[i].y
           && r.particles[i].targetX == pts[i].x && r.particles[i].targetY == pts[i].y
  {
    var e1 := Flipped(e, now, d);
    FlipAllKeeps(e.particles, d.flips);
    var pts := ShapeAt(e, e.shape + 1, d);
    var e2 := EndHold(e1, now, d);
    var r := e2.(particles := PinAll(e2.particles));
    HoldEndsStep(e, now, d);
    EndHoldForms(e1, now, d);
    assert ShapeAt(e1, e1.shape + 1, d) == pts;
    forall i | 0 <= i < |e.particles|
      ensures r.particles[i].startX == e.particles[i].x && r.particles[i].startY == e.particles[i].y
      ensures r.particles[i].targetX == pts[i].x && r.particles[i].targetY == pts[i].y
    {
      assert Moved(e2.particles[i], r.particles[i]);
      assert Retargeted(e1.particles[i], e2.particles[i]);
      assert Recoloured(e.particles[i], e1.particles[i]);
    }
  }

  /** The frame that ends a hold: flips, the end of the hold, the pin. */
  lemma HoldEndsStep(e: Engine, now: nat, d: Draws)
    requires e.phase == Holding && ValidFlips(d.flips, |e.particles|)
    requires now - e.stateStart > HoldTime && e.shape != FinalShape
    ensures var e2 := EndHold(Flipped(e, now, d), now, d);
      Step(e, now, d) == e2.(particles := PinAll(e2.particles))
  {
    assert Flipped(e, now, d).shape == e.shape;
  }

  /** A hold that ends without a scatter re-targets the particles at the
      next shape. */
  lemma EndHoldForms(e: Engine, now: nat, d: Draws)
    requires !ShouldScatter(e.shape)
    ensures EndHold(e, now, d).particles == FormAll(e.particles, ShapeAt(e, e.shape + 1, d), e.cx, e.cy)
  {
    var next := e.(firstGrid := false, shape := e.shape + 1);
    assert ShapeAt(next, e.shape + 1, d) == ShapeAt(e, e.shape + 1, d);
  }

  /** The end of a scatter: the next shape starts forming, and each particle
      starts it from exactly the scatter target it was heading for. */
  lemma ScatterEnds(e: Engine, now: nat, d: Draws)
    requires Inv(e) && e.phase == Scattering && now - e.stateStart > ScatterTime
    requires ValidFlips(d.flips, |e.particles|)
    ensures var r := Step(e, now, d);
      && r.phase == Forming && r.shape == e.shape + 1 && r.stateStart == now
      && r.progress == 0.0
      && forall i | 0 <= i < |e.particles| ::
           r.particles[i].startX == e.particles[i].targetX
           && r.particles[i].startY == e.particles[i].targetY
  {
    FullProgress(now - e.stateStart, ScatterTime);
    var e1 := ScatterMotion(e, now);
    assert e1.particles == LerpAll(e.particles, 1.0);
    var r := StartForming(e1.(shape := e.shape + 1), e.shape + 1, now, d);
    ScatterEndsStep(e, now, d);
    LerpAllEnds(e.particles);
    forall i | 0 <= i < |e.particles|
      ensures r.particles[i].startX == e.particles[i].targetX
      ensures r.particles[i].startY == e.particles[i].targetY
    {
      assert AtTarget(e1.particles[i]);
      assert Retargeted(e1.particles[i], r.particles[i]);
    }
  }

  /** The last scattering frame is the scatter motion followed by
      startForming of the next shape, which is never past the last one. */
  lemma ScatterEndsStep(e: Engine, now: nat, d: Draws)
    requires e.phase == Scattering && e.shape + 1 < |Shapes| && now - e.stateStart > ScatterTime
    requires ValidFlips(d.flips, |e.particles|)
    ensures Step(e, now, d)
      == StartForming(ScatterMotion(e, now).(shape := e.shape + 1), e.shape + 1, now, d)
  {
    assert (e.shape + 1) % |Shapes| == e.shape + 1;
  }

  /** Past the length of a phase its progress is clamped to 1. */
  lemma FullProgress(elapsed: nat, length: nat)
    requires 0 < length < elapsed
    ensures Min(1.0, elapsed as real / length as real) == 1.0
  {
    assert elapsed as real / length as real > 1.0;
  }

  /** The end of a form: every particle is exactly on its (unchanged)
      target, and the machine holds from this frame on. */
  lemma FormingEnds(e: Engine, now: nat)
    requires e.phase == Forming && now - e.stateStart > FormTime
    ensures var r := FormingStep(e, now);
      && r.phase == Holding && r.shape == e.shape && r.stateStart == now
      && r.progress == 1.0
      && AllAtTarget(r.particles)
      && forall i | 0 <= i < |e.particles| ::
           r.particles[i].targetX == e.particles[i].targetX
           && r.particles[i].targetY == e.particles[i].targetY
  {
    FullProgress(now - e.stateStart, FormTime);
  }

  /** Before a phase ends its progress is the elapsed fraction of the
      phase, within [0, 1] once the clock has not gone back. */
  lemma ProgressClamped(e: Engine, now: nat, d: Draws)
    requires Inv(e) && e.phase != Holding && e.stateStart <= now
    requires ValidFlips(d.flips, |e.particles|)
    ensures 0.0 <= Step(e, now, d).progress <= 1.0
  {
  }

  // ---------------------------------------------------------------------
  // The final shape
  // ---------------------------------------------------------------------

  /** The state after the given frames (frame k at time nows[k] with draws ds[k]). */
  function Run(e: Engine, nows: seq<nat>, ds: seq<Draws>): (r: Engine)
    requires |nows| == |ds|
    requires forall k | 0 <= k < |ds| :: ValidFlips(ds[k].flips, |e.particles|)
    ensures |r.particles| == |e.particles|
    decreases |nows|
  {
    if nows == [] then e
    else Run(Step(e, nows[0], ds[0]), nows[1..], ds[1..])
  }

  /** Holding the text shape, a frame only pins the particles to their targets. */
  lemma FinalFrame(e: Engine, now: nat, d: Draws)
    requires e.phase == Holding && e.shape == FinalShape && ValidFlips(d.flips, |e.particles|)
    ensures Step(e, now, d) == e.(particles := PinAll(e.particles))
  {
  }

  /** Once the text shape is held, no sequence of frames changes anything
      but pinning the particles: the animation stops there for good. */
  lemma {:induction false} FinalShapeIsFrozen(e: Engine, nows: seq<nat>, ds: seq<Draws>)
    requires e.phase == Holding && e.shape == FinalShape
    requires |nows| == |ds| && |nows| > 0
    requires forall k | 0 <= k < |ds| :: ValidFlips(ds[k].flips, |e.particles|)
    ensures Run(e, nows, ds) == e.(particles := PinAll(e.particles))
    decreases |nows|
  {
    var e1 := Step(e, nows[0], ds[0]);
    FinalFrame(e, nows[0], ds[0]);
    if |nows| > 1 {
      FinalShapeIsFrozen(e1, nows[1..], ds[1..]);
      PinAllIdempotent(e.particles);
    }
  }

  /** No frame flips a glyph except a holding frame on the grid. */
  lemma GlyphsFlipOnlyOnGrid(e: Engine, now: nat, d: Draws)
    requires ValidFlips(d.flips, |e.particles|)
    requires e.phase != Holding || e.shape != 0
    ensures forall i | 0 <= i < |e.particles| ::
      Step(e, now, d).particles[i].glyph == e.particles[i].glyph
  {
  }

  // ---------------------------------------------------------------------
  // From the grid to the silhouette
  // ---------------------------------------------------------------------

  /** The first transition: after the hold the grid forms the pregnant
      silhouette without scattering, each particle starting from its grid
      point; once the form time has passed every particle stands on its
      silhouette point. */
  lemma GridToSilhouette(width: nat, height: nat, t0: nat, coin: nat -> bool, sizeDraw: nat -> real,
                         d1: Draws, d2: Draws, t1: nat, t2: nat)
    requires t1 > t0 + HoldTime && t2 > t1 + FormTime
    requires ValidFlips(d1.flips, ParticleCount) && ValidFlips(d2.flips, ParticleCount)
    ensures var e0 := Initial(width, height, t0, coin, sizeDraw);
      var e1 := Step(e0, t1, d1);
      var e2 := Step(e1, t2, d2);
      && e1.phase == Forming && e1.shape == 1 && !e1.firstGrid
      && e2.phase == Holding && e2.shape == 1
      && forall i | 0 <= i < ParticleCount ::
           var g := GridPoints(ParticleCount, e0.cx, e0.cy, e0.scale)[i];
           && e1.particles[i].startX == g.x && e1.particles[i].startY == g.y
           && e2.particles[i].x == d1.sample(Pregnant, i).x
           && e2.particles[i].y == d1.sample(Pregnant, i).y
  {
    var e0 := Initial(width, height, t0, coin, sizeDraw);
    InitialState(width, height, t0, coin, sizeDraw);
    HoldingFormsNext(e0, t1, d1);
    var e1 := Step(e0, t1, d1);
    assert ShapeAt(e0, 1, d1) == SampledPoints(Pregnant, ParticleCount, d1.sample);
    FormingEnds(e1, t2);
  }

  // ---------------------------------------------------------------------
  // Easing
  // ---------------------------------------------------------------------

  /** The curve starts at 0 and ends at 1. */
  lemma EaseEnds()
    ensures EaseInOutCubic(0.0) == 0.0 && EaseInOutCubic(1.0) == 1.0
  {
  }

  /** The curve is point-symmetric about (0.5, 0.5). */
  lemma EaseSymmetric(t: real)
    ensures EaseInOutCubic(1.0 - t) == 1.0 - EaseInOutCubic(t)
  {
    if t < 0.5 {
      assert -2.0 * (1.0 - t) + 2.0 == 2.0 * t;
      CubeDouble(t);
    } else if t > 0.5 {
      assert -2.0 * t + 2.0 == 2.0 * (1.0 - t);
      CubeDouble(1.0 - t);
    }
  }

  lemma CubeDouble(a: real)
    ensures Cube(2.0 * a) == 8.0 * Cube(a)
  {
    assert (2.0 * a) * (2.0 * a) * (2.0 * a) == 8.0 * (a * a * a);
  }

  lemma CubeMonotone(a: real, b: real)
    requires 0.0 <= a <= b
    ensures Cube(a) <= Cube(b)
  {
    assert a * a <= b * b;
    assert a * a * a <= b * b * a <= b * b * b;
  }

  /** The curve never decreases on [0, 1]. */
  lemma EaseMonotone(a: real, b: real)
    requires 0.0 <= a <= b <= 1.0
    ensures EaseInOutCubic(a) <= EaseInOutCubic(b)
  {
    if b < 0.5 {
      CubeMonotone(a, b);
    } else if a >= 0.5 {
      CubeMonotone(-2.0 * b + 2.0, -2.0 * a + 2.0);
    } else {
      CubeMonotone(a, 0.5);
      CubeMonotone(-2.0 * b + 2.0, 1.0);
    }
  }

  /** The curve maps [0, 1] into [0, 1]. */
  lemma EaseBounded(t: real)
    requires 0.0 <= t <= 1.0
    ensures 0.0 <= EaseInOutCubic(t) <= 1.0
  {
    EaseEnds();
    EaseMonotone(0.0, t);
    EaseMonotone(t, 1.0);
  }
}
