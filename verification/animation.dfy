/**
 * The morphing animation of `MorphingBinary` (js/main.js) as a pure state
 * machine: one `Step` per animation frame, from the state before the frame
 * to the state after it.
 *
 * The clock (Date.now) is the frame time `now`, in milliseconds; the
 * random draws of a frame (Math.random) come in a `Draws` record. The class
 * in module Morphing updates its fields and its particle array in place and
 * is proved to move exactly as `Step` says.
 */
module Animation {
  import opened Geometry

  // ---------------------------------------------------------------------
  // Constants of the animation
  // ---------------------------------------------------------------------

  const ParticleCount := 400
  const HoldTime := 3000
  const ScatterTime := 800
  const FormTime := 2500
  const FlipInterval := 30
  const FlipsPerFrame := 8
  const Blue := "#64bde3"
  const DarkBlue := "#3d8ab3"
  /** The index of `text`, the last shape of the sequence. */
  const FinalShape := 4

  // ---------------------------------------------------------------------
  // Particles
  // ---------------------------------------------------------------------

  datatype Phase = Holding | Scattering | Forming

  /** One glyph on the canvas: where it is, where its current transition
      started and where it is heading. (The velocities vx, vy are always 0
      and never read, so they are not part of the model.) */
  datatype Particle = Particle(x: real, y: real, startX: real, startY: real,
                               targetX: real, targetY: real,
                               glyph: char, color: string, size: real)

  /** updateParticleColor: '1' is drawn blue, every other glyph dark blue. */
  function ColorFor(glyph: char): (c: string)
    ensures c == Blue <==> glyph == '1'
    ensures c == DarkBlue <==> glyph != '1'
  {
    if glyph == '1' then Blue else DarkBlue
  }

  /** A binary glyph drawn in the colour its digit calls for. */
  predicate Coupled(p: Particle)
  {
    (p.glyph == '0' || p.glyph == '1') && p.color == ColorFor(p.glyph)
  }

  predicate AllCoupled(ps: seq<Particle>)
  {
    forall i | 0 <= i < |ps| :: Coupled(ps[i])
  }

  predicate AtTarget(p: Particle)
  {
    p.x == p.targetX && p.y == p.targetY
  }

  predicate AllAtTarget(ps: seq<Particle>)
  {
    forall i | 0 <= i < |ps| :: AtTarget(ps[i])
  }

  /** The same particle at another position: only x and y differ. */
  predicate Moved(p: Particle, q: Particle)
  {
    q == p.(x := q.x, y := q.y)
  }

  /** The same particle, restarted from where it is: its start becomes its
      current position; only the target may differ otherwise. */
  predicate Retargeted(p: Particle, q: Particle)
  {
    q == p.(startX := p.x, startY := p.y, targetX := q.targetX, targetY := q.targetY)
  }

  /** A grid-hold flip: '1' becomes '0', anything else '1', and the colour
      follows the new glyph. */
  function Flip(p: Particle): (q: Particle)
    ensures Coupled(q)
    ensures p.glyph == '0' || p.glyph == '1' ==> q.glyph != p.glyph
    ensures Recoloured(p, q)
  {
    var g := if p.glyph == '1' then '0' else '1';
    p.(glyph := g, color := ColorFor(g))
  }

  /** The draws of one frame are usable: one particle index per flip, each
      below the particle count (Math.floor(Math.random() * length)). */
  predicate ValidFlips(flips: seq<nat>, n: nat)
  {
    |flips| == FlipsPerFrame && forall k | 0 <= k < |flips| :: flips[k] < n
  }

  /** The particles after flipping, one after another, the particles at the
      given indices (an index may come twice and then flips back). */
  function FlipAll(ps: seq<Particle>, flips: seq<nat>): (r: seq<Particle>)
    requires forall k | 0 <= k < |flips| :: flips[k] < |ps|
    ensures |r| == |ps|
  {
    if flips == [] then ps
    else
      var prev := FlipAll(ps, flips[..|flips| - 1]);
      prev[flips[|flips| - 1] := Flip(prev[flips[|flips| - 1]])]
  }

  /** One more flip: the particle at the next index flips. */
  lemma FlipAllStep(ps: seq<Particle>, flips: seq<nat>, f: nat)
    requires f < |flips| && forall k | 0 <= k < |flips| :: flips[k] < |ps|
    ensures var prev := FlipAll(ps, flips[..f]);
      FlipAll(ps, flips[..f + 1]) == prev[flips[f] := Flip(prev[flips[f]])]
  {
    assert flips[..f + 1][..f] == flips[..f];
  }

  /** The same particle with another glyph and colour: nothing else differs. */
  predicate Recoloured(p: Particle, q: Particle)
  {
    q == p.(glyph := q.glyph, color := q.color)
  }

  /** Flips change glyphs and colours only, and keep every glyph coupled to
      its colour. */
  lemma {:induction false} FlipAllKeeps(ps: seq<Particle>, flips: seq<nat>)
    requires forall k | 0 <= k < |flips| :: flips[k] < |ps|
    ensures AllCoupled(ps) ==> AllCoupled(FlipAll(ps, flips))
    ensures forall i | 0 <= i < |ps| :: Recoloured(ps[i], FlipAll(ps, flips)[i])
  {
    if flips != [] {
      FlipAllKeeps(ps, flips[..|flips| - 1]);
    }
  }

  /** Flipping a coupled particle twice gives it back. */
  lemma FlipTwice(p: Particle)
    requires Coupled(p)
    ensures Flip(Flip(p)) == p
  {
  }

  /** A particle whose index was not drawn is left as it was. */
  lemma {:induction false} FlipAllUntouched(ps: seq<Particle>, flips: seq<nat>, i: nat)
    requires forall k | 0 <= k < |flips| :: flips[k] < |ps|
    requires i < |ps| && i !in flips
    ensures FlipAll(ps, flips)[i] == ps[i]
  {
    if flips != [] {
      var pre := flips[..|flips| - 1];
      assert i !in pre by {
        forall k | 0 <= k < |pre| ensures pre[k] != i {
          assert pre[k] == flips[k];
        }
      }
      FlipAllUntouched(ps, pre, i);
    }
  }

  /** Drawing one more index adds one to its count and nothing to others. */
  lemma CountSnoc(flips: seq<nat>, i: nat)
    requires flips != []
    ensures var last := flips[|flips| - 1];
      multiset(flips)[i] == multiset(flips[..|flips| - 1])[i] + (if last == i then 1 else 0)
  {
    assert flips == flips[..|flips| - 1] + [flips[|flips| - 1]];
  }

  /** A coupled particle ends flipped exactly when its index was drawn an
      odd number of times, and unchanged otherwise. */
  lemma {:induction false} FlipAllParity(ps: seq<Particle>, flips: seq<nat>, i: nat)
    requires forall k | 0 <= k < |flips| :: flips[k] < |ps|
    requires i < |ps| && Coupled(ps[i])
    ensures FlipAll(ps, flips)[i] == if multiset(flips)[i] % 2 == 1 then Flip(ps[i]) else ps[i]
  {
    if flips != [] {
      var pre: seq<nat> := flips[..|flips| - 1];
      FlipAllParity(ps, pre, i);
      CountSnoc(flips, i);
      if flips[|flips| - 1] == i {
        FlipTwice(ps[i]);
      }
    }
  }

  /** The particle created at position `pos`: at rest there, glyph '1' when
      the coin says so, font size 10 + 3r for the draw r in [0, 1). */
  function NewParticle(pos: Point, one: bool, r: real): (p: Particle)
    ensures AtTarget(p) && Coupled(p)
    ensures p.x == p.startX && p.y == p.startY
    ensures p.glyph == '1' <==> one
  {
    var g := if one then '1' else '0';
    Particle(pos.x, pos.y, pos.x, pos.y, pos.x, pos.y, g, ColorFor(g), 10.0 + r * 3.0)
  }

  // ---------------------------------------------------------------------
  // Engine state and the random draws of a frame
  // ---------------------------------------------------------------------

  /** The fields of a MorphingBinary that the animation reads or writes. */
  datatype Engine = Engine(phase: Phase, shape: nat, stateStart: nat, lastFlip: nat,
                           progress: real, firstGrid: bool, particles: seq<Particle>,
                           cx: real, cy: real, scale: real)

  /** What Math.random decides during one frame: the flipped indices, the
      scatter displacement of particle i (cos(angle) * distance,
      sin(angle) * distance), the points of the trigonometric shapes and the
      text jitter. */
  datatype Draws = Draws(flips: seq<nat>, offset: nat -> Point, sample: Sampler, jitter: Jitter)

  /** shouldScatter: no scatter phase after grid (0) and after galaxy (3). */
  predicate ShouldScatter(shape: nat)
  {
    shape != 0 && shape != 3
  }

  /** isAtFinalShape: the text shape ends the animation. */
  predicate IsAtFinalShape(shape: nat)
  {
    shape == FinalShape
  }

  /** The invariant every reachable state keeps. */
  predicate Inv(e: Engine)
  {
    && |e.particles| == ParticleCount
    && e.shape < |Shapes|
    && e.progress <= 1.0
    && AllCoupled(e.particles)
    && (e.phase == Scattering ==> e.shape == 1 || e.shape == 2)
  }

  function Min(a: real, b: real): (m: real)
    ensures m <= a && m <= b && (m == a || m == b)
  {
    if a <= b then a else b
  }

  // ---------------------------------------------------------------------
  // Per-particle moves
  // ---------------------------------------------------------------------

  /** The particles snapped onto their targets. */
  function PinAll(ps: seq<Particle>): (r: seq<Particle>)
    ensures |r| == |ps| && AllAtTarget(r)
    ensures forall i | 0 <= i < |ps| :: Moved(ps[i], r[i])
  {
    seq(|ps|, i requires 0 <= i < |ps| => ps[i].(x := ps[i].targetX, y := ps[i].targetY))
  }

  /** Every particle at start + (target - start) * t. */
  function LerpAll(ps: seq<Particle>, t: real): (r: seq<Particle>)
    ensures |r| == |ps|
    ensures forall i | 0 <= i < |ps| :: Moved(ps[i], r[i])
  {
    seq(|ps|, i requires 0 <= i < |ps| => Lerp(ps[i], t))
  }

  /** One particle at start + (target - start) * t. */
  function Lerp(p: Particle, t: real): Particle
  {
    p.(x := p.startX + (p.targetX - p.startX) * t, y := p.startY + (p.targetY - p.startY) * t)
  }

  /** startScattering's loop: start at the current position, target at the
      current position moved by the particle's offset. */
  function ScatterAll(ps: seq<Particle>, offset: nat -> Point): (r: seq<Particle>)
    ensures |r| == |ps|
    ensures forall i | 0 <= i < |ps| ::
      && Retargeted(ps[i], r[i])
      && r[i].targetX - r[i].startX == offset(i).x && r[i].targetY - r[i].startY == offset(i).y
  {
    seq(|ps|, i requires 0 <= i < |ps| =>
          ps[i].(startX := ps[i].x, startY := ps[i].y,
                 targetX := ps[i].x + offset(i).x, targetY := ps[i].y + offset(i).y))
  }

  /** startForming's loop: start at the current position, target at point i
      of the new shape, or at the centre when the shape has no point i. */
  function FormAll(ps: seq<Particle>, pts: seq<Point>, cx: real, cy: real): (r: seq<Particle>)
    ensures |r| == |ps|
    ensures forall i | 0 <= i < |ps| ::
      && Retargeted(ps[i], r[i])
      && (i < |pts| ==> r[i].targetX == pts[i].x && r[i].targetY == pts[i].y)
      && (i >= |pts| ==> r[i].targetX == cx && r[i].targetY == cy)
  {
    seq(|ps|, i requires 0 <= i < |ps| =>
          var t := if i < |pts| then pts[i] else Point(cx, cy);
          ps[i].(startX := ps[i].x, startY := ps[i].y, targetX := t.x, targetY := t.y))
  }

  /** The points of shape number idx (`this.shapes[idx]`); an index past the
      sequence names no shape and yields no points. */
  function ShapeAt(e: Engine, idx: nat, d: Draws): (pts: seq<Point>)
    ensures idx < |Shapes| ==> |pts| == ParticleCount
    ensures idx >= |Shapes| ==> pts == []
  {
    if idx < |Shapes| then ShapePoints(Shapes[idx], ParticleCount, e.cx, e.cy, e.scale, d.sample, d.jitter)
    else []
  }

  // ---------------------------------------------------------------------
  // State changes
  // ---------------------------------------------------------------------

  /** The flip batch of a holding frame on the grid, at most every
      FlipInterval milliseconds. */
  function Flipped(e: Engine, now: nat, d: Draws): (r: Engine)
    requires ValidFlips(d.flips, |e.particles|)
    ensures r.phase == e.phase && r.shape == e.shape && r.stateStart == e.stateStart
    ensures |r.particles| == |e.particles|
    ensures forall i | 0 <= i < |e.particles| :: Recoloured(e.particles[i], r.particles[i])
    ensures AllCoupled(e.particles) ==> AllCoupled(r.particles)
    ensures e.shape != 0 ==> r == e
    ensures r == e.(particles := r.particles, lastFlip := r.lastFlip)
    ensures e.shape == 0 && now - e.lastFlip > FlipInterval ==>
      r.lastFlip == now && r.particles == FlipAll(e.particles, d.flips)
    ensures !(e.shape == 0 && now - e.lastFlip > FlipInterval) ==> r == e
  {
    FlipAllKeeps(e.particles, d.flips);
    if e.shape == 0 && now - e.lastFlip > FlipInterval then
      e.(particles := FlipAll(e.particles, d.flips), lastFlip := now)
    else e
  }

  /** startScattering. */
  function StartScattering(e: Engine, now: nat, d: Draws): (r: Engine)
    ensures r.phase == Scattering && r.shape == e.shape && !r.firstGrid
    ensures r.stateStart == now && r.progress == 0.0
    ensures |r.particles| == |e.particles|
    ensures forall i | 0 <= i < |e.particles| ::
      && Retargeted(e.particles[i], r.particles[i])
      && r.particles[i].targetX - r.particles[i].startX == d.offset(i).x
      && r.particles[i].targetY - r.particles[i].startY == d.offset(i).y
  {
    e.(particles := ScatterAll(e.particles, d.offset), phase := Scattering,
       stateStart := now, progress := 0.0, firstGrid := false)
  }

  /** startForming(idx). */
  function StartForming(e: Engine, idx: nat, now: nat, d: Draws): (r: Engine)
    ensures r.phase == Forming && r.shape == e.shape && r.firstGrid == e.firstGrid
    ensures r.stateStart == now && r.progress == 0.0
    ensures |r.particles| == |e.particles|
    ensures forall i | 0 <= i < |e.particles| ::
      var target := if i < |ShapeAt(e, idx, d)| then ShapeAt(e, idx, d)[i] else Point(e.cx, e.cy);
      && Retargeted(e.particles[i], r.particles[i])
      && r.particles[i].targetX == target.x && r.particles[i].targetY == target.y
  {
    e.(particles := FormAll(e.particles, ShapeAt(e, idx, d), e.cx, e.cy), phase := Forming,
       stateStart := now, progress := 0.0)
  }

  /** The easing curve of the forming phase. */
  function EaseInOutCubic(t: real): real
  {
    if t < 0.5 then 4.0 * t * t * t
    else 1.0 - Cube(-2.0 * t + 2.0) / 2.0
  }

  function Cube(a: real): real
  {
    a * a * a
  }

  /** A holding frame: flips on the grid; after HoldTime, unless at the
      final shape, scatter or move directly to the next shape; then every
      particle is pinned to its target. */
  function HoldingStep(e: Engine, now: nat, d: Draws): (r: Engine)
    requires ValidFlips(d.flips, |e.particles|)
    ensures |r.particles| == |e.particles|
  {
    var elapsed := now - e.stateStart;
    var e1 := Flipped(e, now, d);
    var e2 := if elapsed > HoldTime && !IsAtFinalShape(e1.shape) then EndHold(e1, now, d) else e1;
    e2.(particles := PinAll(e2.particles))
  }

  /** The end of a hold: scatter first, or go straight on to forming the
      next shape. Either way every particle restarts from where it stands. */
  function EndHold(e: Engine, now: nat, d: Draws): (r: Engine)
    ensures ShouldScatter(e.shape) ==> r.phase == Scattering && r.shape == e.shape
    ensures !ShouldScatter(e.shape) ==> r.phase == Forming && r.shape == e.shape + 1 && !r.firstGrid
    ensures r.stateStart == now && r.progress == 0.0 && |r.particles| == |e.particles|
    ensures forall i | 0 <= i < |e.particles| :: Retargeted(e.particles[i], r.particles[i])
  {
    if ShouldScatter(e.shape) then StartScattering(e, now, d)
    else StartForming(e.(firstGrid := false, shape := e.shape + 1), e.shape + 1, now, d)
  }

  /** A scattering frame: linear motion for ScatterTime, then the next shape
      (modulo the number of shapes) starts forming. */
  function ScatteringStep(e: Engine, now: nat, d: Draws): (r: Engine)
    ensures |r.particles| == |e.particles|
  {
    var e1 := ScatterMotion(e, now);
    if now - e.stateStart > ScatterTime then
      var next := (e1.shape + 1) % |Shapes|;
      StartForming(e1.(shape := next), next, now, d)
    else e1
  }

  /** The motion of a scattering frame: straight towards the targets, by the
      elapsed fraction of ScatterTime. */
  function ScatterMotion(e: Engine, now: nat): (r: Engine)
    ensures r.phase == e.phase && r.shape == e.shape && r.stateStart == e.stateStart
    ensures r.progress <= 1.0
    ensures e.stateStart <= now ==> 0.0 <= r.progress
    ensures |r.particles| == |e.particles|
    ensures forall i | 0 <= i < |e.particles| :: Moved(e.particles[i], r.particles[i])
  {
    var t := Min(1.0, (now - e.stateStart) as real / ScatterTime as real);
    e.(progress := t, particles := LerpAll(e.particles, t))
  }

  /** A forming frame: eased motion for FormTime, then a snap onto the
      targets and back to holding. */
  function FormingStep(e: Engine, now: nat): (r: Engine)
    ensures |r.particles| == |e.particles|
  {
    var elapsed := now - e.stateStart;
    var t := Min(1.0, elapsed as real / FormTime as real);
    var e1 := e.(progress := t, particles := LerpAll(e.particles, EaseInOutCubic(t)));
    if elapsed > FormTime then
      e1.(particles := PinAll(e1.particles), phase := Holding, stateStart := now)
    else e1
  }

  /** update(): one animation frame at time `now`. */
  function Step(e: Engine, now: nat, d: Draws): (r: Engine)
    requires ValidFlips(d.flips, |e.particles|)
    ensures |r.particles| == |e.particles|
  {
    match e.phase
    case Holding => HoldingStep(e, now, d)
    case Scattering => ScatteringStep(e, now, d)
    case Forming => FormingStep(e, now)
  }

  /** resize(): a new centre and scale; particles and targets stay as they are. */
  function Resized(e: Engine, width: nat, height: nat): (r: Engine)
    ensures r.particles == e.particles && r.phase == e.phase && r.shape == e.shape
  {
    e.(cx := width as real / 2.0, cy := height as real / 2.0,
       scale := Min(width as real, height as real) * 0.35)
  }

  /** The particles createParticles makes on the grid: one per index, at
      grid point i or, were there none, at the centre. */
  function NewParticles(pts: seq<Point>, cx: real, cy: real, coin: nat -> bool,
                        sizeDraw: nat -> real): (ps: seq<Particle>)
    ensures |ps| == ParticleCount
  {
    seq(ParticleCount, i requires 0 <= i < ParticleCount =>
          NewParticle(if i < |pts| then pts[i] else Point(cx, cy), coin(i), sizeDraw(i)))
  }

  /** The state right after the constructor: resized to the container,
      particles on the grid, holding the first shape since `now`. */
  function Initial(width: nat, height: nat, now: nat, coin: nat -> bool,
                   sizeDraw: nat -> real): (e: Engine)
    ensures e.phase == Holding && e.shape == 0 && e.stateStart == now
  {
    var e0 := Resized(Engine(Holding, 0, now, now, 0.0, true, [], 0.0, 0.0, 0.0), width, height);
    e0.(particles := NewParticles(GridPoints(ParticleCount, e0.cx, e0.cy, e0.scale),
                                  e0.cx, e0.cy, coin, sizeDraw))
  }
}
