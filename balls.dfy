/** The inline part of the ball physics object (ext/world/Ball.hpp): the quantities a ball derives
    from its configuration and multipliers, the distance between balls, and the linear smoothing
    helper `LinearDelayer`. */
module Balls {
  import opened Prelude
  import opened WorldMeta

  /** `Overlaps_t`: how two balls overlap. */
  datatype Overlaps = Overlaps | OverlapsOuter | NoOverlaps

  /** Simulation updates per frame. */
  const SIMULATION_UPDATES: int := 2

  /** Upper bound on collision-resolution steps per update. */
  const MAX_SIMULATION_STEPS: int := 3

  /** The static scales shared by every ball: `stfBaseScale` and `stfHeightScale`. */
  class BallScales {
    var baseScale: real
    var heightScale: real

    constructor (base: real, height: real)
      ensures baseScale == base && heightScale == height
    {
      baseScale, heightScale := base, height;
    }

    /** `Ball::setBaseScale`. */
    method SetBaseScale(scale: real)
      modifies this
      ensures baseScale == scale && heightScale == old(heightScale)
    {
      baseScale := scale;
    }

    /** `Ball::setHeightScale`. */
    method SetHeightScale(scale: real)
      modifies this
      ensures heightScale == scale && baseScale == old(baseScale)
    {
      heightScale := scale;
    }
  }

  /** The squared horizontal length of a vector: its x and z components only. */
  function HorizontalSquare(v: Vec3): (r: real)
    ensures r >= 0.0
  {
    v.x * v.x + v.z * v.z
  }

  /** The squared horizontal distance between two points: x and z only. */
  function HorizontalGap(a: Vec3, b: Vec3): (r: real)
    ensures r >= 0.0
  {
    (a.x - b.x) * (a.x - b.x) + (a.z - b.z) * (a.z - b.z)
  }

  /** `Ball`: a `WorldObject` with physics state. The `WorldObject` part is `base`. */
  class Ball {
    const base: WorldObject
    var position: Vec3
    var rotation: Vec3
    var speedVector: Vec3
    var accelerationVector: Vec3
    var outerRadiusBase: real
    var massMultiplier: real
    var radiusMultiplier: real
    var flying: bool

    /** The member initialisers of `Ball`; the rest of its constructor lives in a source file
        that is not part of this model. */
    constructor (worldObject: WorldObject)
      ensures base == worldObject
      ensures position == ZERO && rotation == ZERO && speedVector == ZERO && accelerationVector == ZERO
      ensures outerRadiusBase == 0.0 && massMultiplier == 1.0 && radiusMultiplier == 1.0 && !flying
    {
      base := worldObject;
      position, rotation, speedVector, accelerationVector := ZERO, ZERO, ZERO, ZERO;
      outerRadiusBase, massMultiplier, radiusMultiplier := 0.0, 1.0, 1.0;
      flying := false;
    }

    /** `mass()`: the configured mass times the mass multiplier; a positive mass under a
        positive multiplier stays positive, and the neutral multiplier gives the configured mass. */
    function Mass(): (r: real)
      reads this, base
      ensures base.config.mass > 0.0 && massMultiplier > 0.0 ==> r > 0.0
      ensures massMultiplier == 1.0 ==> r == base.config.mass
    {
      base.config.mass * massMultiplier
    }

    /** `radius()`: the configured radius scaled by the radius multiplier, plus the animated
        growth `fRadiusAnimator × CONFIG.radius`. Without animation it is the configured radius
        scaled by the multiplier. */
    function Radius(): (r: real)
      reads this, base
      ensures r == base.config.radius * (radiusMultiplier + base.radiusAnimator)
      ensures base.radiusAnimator == 0.0 && radiusMultiplier == 1.0 ==> r == base.config.radius
    {
      base.config.radius * radiusMultiplier + base.radiusAnimator * base.config.radius
    }

    /** `outerRadius()`: like `radius()`, with `fOuterRadius` in place of the configured radius in
        the scaled term only; the animated growth is the same. */
    function OuterRadius(): (r: real)
      reads this, base
      ensures r - Radius() == (outerRadiusBase - base.config.radius) * radiusMultiplier
    {
      outerRadiusBase * radiusMultiplier + base.radiusAnimator * base.config.radius
    }

    /** `speed()`: the horizontal speed, from the x and z components of the velocity. */
    function Speed(m: Libm): (r: real)
      reads this
      ensures RootsNonNegative(m) ==> r >= 0.0
    {
      m.fastSqrt(HorizontalSquare(speedVector))
    }

    /** `velocity()`: the full velocity vector, vertical component included. */
    function Velocity(): (v: Vec3)
      reads this
      ensures v == speedVector
    {
      speedVector
    }

    /** `distance(target)`: the horizontal distance between the two ball centres. */
    function Distance(target: Ball, m: Libm): (r: real)
      reads this, target
      ensures RootsNonNegative(m) ==> r >= 0.0
    {
      m.fastSqrt(HorizontalGap(position, target.position))
    }

    /** `setMassMultiplier(m)`: stores `m` as given. */
    method SetMassMultiplier(mult: real)
      modifies this
      ensures massMultiplier == mult && Mass() == base.config.mass * mult
      ensures radiusMultiplier == old(radiusMultiplier) && outerRadiusBase == old(outerRadiusBase)
      ensures position == old(position) && speedVector == old(speedVector)
      ensures rotation == old(rotation) && accelerationVector == old(accelerationVector) && flying == old(flying)
    {
      massMultiplier := mult;
    }

    /** `setRadiusMultiplier(m)`: stores `m` scaled by the shared base scale. */
    method SetRadiusMultiplier(mult: real, scales: BallScales)
      modifies this
      ensures radiusMultiplier == mult * scales.baseScale
      ensures massMultiplier == old(massMultiplier) && outerRadiusBase == old(outerRadiusBase)
      ensures position == old(position) && speedVector == old(speedVector)
      ensures rotation == old(rotation) && accelerationVector == old(accelerationVector) && flying == old(flying)
    {
      radiusMultiplier := mult * scales.baseScale;
    }
  }

  /** The outer radius covers the radius whenever `fOuterRadius` covers the configured radius
      and the multiplier is not negative. */
  lemma {:induction false} OuterRadiusCoversRadius(b: Ball)
    requires b.outerRadiusBase >= b.base.config.radius && b.radiusMultiplier >= 0.0
    ensures b.OuterRadius() >= b.Radius()
  {
    var d := b.outerRadiusBase - b.base.config.radius;
    assert d * b.radiusMultiplier >= 0.0;
  }

  /** The distance between two balls does not depend on which one asks. */
  lemma {:induction false} DistanceSymmetric(a: Ball, b: Ball, m: Libm)
    ensures a.Distance(b, m) == b.Distance(a, m)
  {
    SquareOfDifference(a.position.x, b.position.x);
    SquareOfDifference(a.position.z, b.position.z);
  }

  /** The distance depends on x and z only: two balls that differ only in height are at the
      same distance from any third ball. */
  lemma {:induction false} DistanceIgnoresHeight(a: Ball, a2: Ball, b: Ball, m: Libm)
    requires a.position.x == a2.position.x && a.position.z == a2.position.z
    ensures a.Distance(b, m) == a2.Distance(b, m)
  {
    assert HorizontalGap(a.position, b.position) == HorizontalGap(a2.position, b.position);
  }

  /** Two velocities that differ only vertically give the same speed. */
  lemma {:induction false} SpeedIgnoresVertical(a: Ball, b: Ball, m: Libm)
    requires a.speedVector.x == b.speedVector.x && a.speedVector.z == b.speedVector.z
    ensures a.Speed(m) == b.Speed(m)
  {
    assert HorizontalSquare(a.speedVector) == HorizontalSquare(b.speedVector);
  }

  /** Setting the radius multiplier with a base scale of one stores the multiplier itself, and a
      ball without animation then has its configured radius times that multiplier. */
  method SetRadiusMultiplierUnscaled(b: Ball, mult: real, scales: BallScales)
    requires scales.baseScale == 1.0 && b.base.radiusAnimator == 0.0
    modifies b
    ensures b.radiusMultiplier == mult && b.Radius() == b.base.config.radius * mult
  {
    b.SetRadiusMultiplier(mult, scales);
  }

  /** `LinearDelayer`: a value that follows a target. */
  class LinearDelayer {
    var target: real
    var current: real
    var increment: real

    /** `LinearDelayer(increment)`: sets only the increment; target and current value are left
        uninitialised, so they may hold anything. */
    constructor (inc: real)
      ensures increment == inc
    {
      increment := inc;
    }

    /** `setTarget(t, force)`: records the target and, when forced, jumps straight to it. */
    method SetTarget(t: real, force: bool)
      modifies this
      ensures target == t && increment == old(increment)
      ensures force ==> current == t
      ensures !force ==> current == old(current)
    {
      target := t;
      if force {
        current := t;
      }
    }

    /** `get()`: the current value. */
    function Get(): (v: real)
      reads this
      ensures v == current
    {
      current
    }

    /** `isStable()`: the current value has reached the target. */
    function IsStable(): (b: bool)
      reads this
      ensures b <==> current == target
    {
      current == target
    }
  }

  /** A forced target is reached at once; an unforced one keeps the current value, and is
      reached exactly when that value already equals it. */
  method SetTargetThenRead(d: LinearDelayer, t: real, force: bool) returns (v: real, stable: bool)
    modifies d
    ensures force ==> v == t && stable
    ensures !force ==> v == old(d.current) && (stable <==> old(d.current) == t)
  {
    d.SetTarget(t, force);
    v := d.Get();
    stable := d.IsStable();
  }
}
