/** The tuning constants of a player vehicle (ext/world/PlayerFeatures.hpp) and the few values
    derived from them. */
module Players {

  /** `sObjectConfig`, of which only the radius is read here. */
  datatype ObjectConfig = ObjectConfig(radius: real)

  /** `PlayerFeatures_t`. Each plain accessor of `PlayerFeatures` (`maxSpeed`, `maxSpeedBack`,
      `maxAcceleration`, `friction`, `handling`, `fallLimit`, `climbLimit`, `climbEasy`,
      `scratching`, `mass`, `scale`) returns one of these fields unchanged. */
  datatype Features = Features(
    className: string,
    config: ObjectConfig,
    maxSpeed: real,
    maxSpeedBack: real,
    friction: real,
    acceleration: real,
    handling: real,
    traction: real,
    turnPerformance: real,
    fallLimit: real,
    climbLimit: real,
    climbEasy: real,
    scratching: real,
    scale: real,
    mass: real)

  /** The features of a vehicle class whose constants all keep their initialisers. */
  function DefaultFeatures(className: string, config: ObjectConfig): (f: Features)
    ensures f.className == className && f.config == config
    ensures f.maxSpeed == 160.0 && f.maxSpeedBack == 50.0 && f.mass == 1000.0 && f.scale == 1.0
    ensures f.traction == 2.0 && f.turnPerformance == 0.01
  {
    Features(className, config, 160.0, 50.0, 0.001, 0.003, 18.0, 2.0, 0.01, 0.3, 0.3, 0.06, 0.96, 1.0, 1000.0)
  }

  function Abs(v: real): (r: real)
    ensures r >= 0.0 && (r == v || r == -v)
  {
    if v < 0.0 then -v else v
  }

  /** `speedPercent(speed)`: `fmin(fabs(speed) / MAXSPEED, 1)`. With `MAXSPEED` zero the IEEE
      quotient is infinite or NaN, and `fmin` answers 1 in both cases. */
  function SpeedPercent(f: Features, speed: real): (p: real)
    ensures p <= 1.0
    ensures f.maxSpeed >= 0.0 ==> 0.0 <= p
    ensures f.maxSpeed > 0.0 && Abs(speed) < f.maxSpeed ==> p * f.maxSpeed == Abs(speed)
  {
    if f.maxSpeed == 0.0 then 1.0
    else
      var q := Abs(speed) / f.maxSpeed;
      if q < 1.0 then q else 1.0
  }

  /** Speed percentage does not depend on the direction of travel. */
  lemma {:induction false} SpeedPercentEven(f: Features, speed: real)
    ensures SpeedPercent(f, -speed) == SpeedPercent(f, speed)
  {
    assert Abs(-speed) == Abs(speed);
  }

  /** At or beyond the top speed the percentage is exactly one. */
  lemma {:induction false} SpeedPercentSaturates(f: Features, speed: real)
    requires f.maxSpeed > 0.0 && Abs(speed) >= f.maxSpeed
    ensures SpeedPercent(f, speed) == 1.0
  {
    assert Abs(speed) / f.maxSpeed >= 1.0;
  }

  /** A faster vehicle never has a lower percentage. */
  lemma {:induction false} SpeedPercentMonotone(f: Features, s1: real, s2: real)
    requires f.maxSpeed > 0.0 && Abs(s1) <= Abs(s2)
    ensures SpeedPercent(f, s1) <= SpeedPercent(f, s2)
  {
    QuotientMonotone(Abs(s1), Abs(s2), f.maxSpeed);
  }

  lemma {:induction false} QuotientMonotone(a: real, b: real, k: real)
    requires a <= b && k > 0.0
    ensures a / k <= b / k
  {
    assert b / k - a / k == (b - a) * (1.0 / k);
    ProductNonNegative(b - a, 1.0 / k);
  }

  lemma {:induction false} ProductNonNegative(a: real, b: real)
    ensures a >= 0.0 && b >= 0.0 ==> a * b >= 0.0
  {
  }

  /** `traction(multiplier)`: the traction constant scaled by `multiplier`; the default
      multiplier 1 gives the constant itself. */
  function Traction(f: Features, multiplier: real): (r: real)
    ensures multiplier == 1.0 ==> r == f.traction
    ensures f.traction >= 0.0 && multiplier >= 0.0 ==> r >= 0.0
    ensures multiplier == 0.0 ==> r == 0.0
  {
    ProductNonNegative(f.traction, multiplier);
    f.traction * multiplier
  }

  /** `turnPerformance(multiplier)`: the turn-performance constant scaled by `multiplier`. */
  function TurnPerformance(f: Features, multiplier: real): (r: real)
    ensures multiplier == 1.0 ==> r == f.turnPerformance
    ensures f.turnPerformance >= 0.0 && multiplier >= 0.0 ==> r >= 0.0
    ensures multiplier == 0.0 ==> r == 0.0
  {
    ProductNonNegative(f.turnPerformance, multiplier);
    f.turnPerformance * multiplier
  }

  /** Traction and turn performance are linear in the multiplier. */
  lemma {:induction false} MultipliersAreLinear(f: Features, a: real, b: real)
    ensures Traction(f, a + b) == Traction(f, a) + Traction(f, b)
    ensures TurnPerformance(f, a + b) == TurnPerformance(f, a) + TurnPerformance(f, b)
  {
  }

  /** `wheelBase()`: 1.7 times the vehicle's radius, so never shorter than the radius. */
  function WheelBase(f: Features): (w: real)
    ensures f.config.radius >= 0.0 ==> w >= f.config.radius
    ensures w * 10.0 == f.config.radius * 17.0
  {
    f.config.radius * 1.7
  }
}
