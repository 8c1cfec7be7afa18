/** A line segment with a thickness (ext/world/LineSegment.hpp): copies that are scaled,
    translated or rotated about the origin, and the same three operations in place. */
module LineSegments {
  import opened Prelude

  /** The five fields of `LineSegment_t`: start point, end point and radius. */
  datatype Segment = Segment(sx: real, sy: real, ex: real, ey: real, radius: real)

  /** `scaled(s)`: all four coordinates multiplied by `s`; the radius is kept. */
  function Scaled(g: Segment, s: real): (r: Segment)
    ensures r.radius == g.radius
    ensures s == 1.0 ==> r == g
    ensures s == 0.0 ==> r.sx == r.sy == r.ex == r.ey == 0.0
  {
    Segment(g.sx * s, g.sy * s, g.ex * s, g.ey * s, g.radius)
  }

  /** `translated(x, y)`: both endpoints moved by (x, y); the radius is kept, and so is the
      difference between the endpoints. */
  function Translated(g: Segment, x: real, y: real): (r: Segment)
    ensures r.radius == g.radius
    ensures r.ex - r.sx == g.ex - g.sx && r.ey - r.sy == g.ey - g.sy
    ensures r.sx - g.sx == x && r.sy - g.sy == y
  {
    Segment(g.sx + x, g.sy + y, g.ex + x, g.ey + y, g.radius)
  }

  /** Translating by (x, y) and then by (-x, -y) gives back the segment. */
  lemma {:induction false} TranslateRoundTrip(g: Segment, x: real, y: real)
    ensures Translated(Translated(g, x, y), -x, -y) == g
  {
    var r := Translated(Translated(g, x, y), -x, -y);
    assert r.sx == g.sx && r.sy == g.sy && r.ex == g.ex && r.ey == g.ey;
  }

  /** Two translations add up. */
  lemma {:induction false} TranslationsCompose(g: Segment, x1: real, y1: real, x2: real, y2: real)
    ensures Translated(Translated(g, x1, y1), x2, y2) == Translated(g, x1 + x2, y1 + y2)
  {
  }

  /** Scaling by a non-zero factor is undone by scaling by its inverse. */
  lemma {:induction false} ScaleRoundTrip(g: Segment, s: real)
    requires s != 0.0
    ensures Scaled(Scaled(g, s), 1.0 / s) == g
  {
    assert g.sx * s * (1.0 / s) == g.sx;
    assert g.sy * s * (1.0 / s) == g.sy;
    assert g.ex * s * (1.0 / s) == g.ex;
    assert g.ey * s * (1.0 / s) == g.ey;
  }

  /** `rotated(rads)` with `c = cosf(rads)` and `s = sinf(rads)`: both endpoints rotated about the
      origin. The braced initialiser lists four values, so the radius of the copy is zero. */
  function Rotated(g: Segment, c: real, s: real): (r: Segment)
    ensures r.radius == 0.0
    ensures c == 1.0 && s == 0.0 ==> r == g.(radius := 0.0)
  {
    Segment(g.sx * c - g.sy * s, g.sy * c + g.sx * s, g.ex * c - g.ey * s, g.ey * c + g.ex * s, 0.0)
  }

  /** A rotation matrix keeps the distance of a point from the origin. */
  lemma {:induction false} RotationKeepsNorm(x: real, y: real, c: real, s: real, x': real, y': real)
    requires c * c + s * s == 1.0
    requires x' == x * c - y * s && y' == y * c + x * s
    ensures x' * x' + y' * y' == x * x + y * y
  {
    assert x' * x' + y' * y' == (x * x + y * y) * (c * c + s * s);
  }

  /** With `c² + s² = 1`, `rotated` keeps each endpoint's distance from the origin. */
  lemma {:induction false} RotatedKeepsNorms(g: Segment, c: real, s: real)
    requires c * c + s * s == 1.0
    ensures var r := Rotated(g, c, s);
      r.sx * r.sx + r.sy * r.sy == g.sx * g.sx + g.sy * g.sy &&
      r.ex * r.ex + r.ey * r.ey == g.ex * g.ex + g.ey * g.ey
  {
    var r := Rotated(g, c, s);
    RotationKeepsNorm(g.sx, g.sy, c, s, r.sx, r.sy);
    RotationKeepsNorm(g.ex, g.ey, c, s, r.ex, r.ey);
  }

  /** `angle()`: the direction from the start to the end point, with `atan2` uninterpreted. */
  function Angle(g: Segment, m: Libm): (a: real)
    ensures g.ex == g.sx && g.ey == g.sy ==> a == m.atan2(0.0, 0.0)
  {
    m.atan2(g.ey - g.sy, g.ex - g.sx)
  }

  /** A translated segment points the same way. */
  lemma {:induction false} TranslateKeepsAngle(g: Segment, x: real, y: real, m: Libm)
    ensures Angle(Translated(g, x, y), m) == Angle(g, m)
  {
    var r := Translated(g, x, y);
    assert r.ey - r.sy == g.ey - g.sy && r.ex - r.sx == g.ex - g.sx;
  }

  /** The in-place `rotate` as written: `sy` is computed from the `sx` just assigned, and `ey`
      from the `ex` just assigned. */
  function RotatedInPlaceAsWritten(g: Segment, c: real, s: real): (r: Segment)
    ensures r.radius == g.radius
    ensures r.sx == g.sx * c - g.sy * s && r.ex == g.ex * c - g.ey * s
  {
    var sx := g.sx * c - g.sy * s;
    var sy := g.sy * c + sx * s;
    var ex := g.ex * c - g.ey * s;
    var ey := g.ey * c + ex * s;
    Segment(sx, sy, ex, ey, g.radius)
  }

  /** The in-place rotation as written agrees with `rotated` on the two x coordinates, and on
      all four coordinates when the sine is zero. */
  lemma {:induction false} AsWrittenAgreesOnX(g: Segment, c: real, s: real)
    ensures RotatedInPlaceAsWritten(g, c, s).sx == Rotated(g, c, s).sx
    ensures RotatedInPlaceAsWritten(g, c, s).ex == Rotated(g, c, s).ex
    ensures s == 0.0 ==> RotatedInPlaceAsWritten(g, c, s) == Rotated(g, c, s).(radius := g.radius)
  {
  }

  /** A quarter turn (c = 0, s = 1) of the segment from (1, 0) to (0, 0): `rotated` moves the
      start to (0, 1), while the in-place `rotate` as written moves it to (0, 0), pulling a point
      at distance 1 from the origin onto the origin. */
  lemma RotateAsWrittenCounterexample()
    ensures Rotated(Segment(1.0, 0.0, 0.0, 0.0, 0.0), 0.0, 1.0).sy == 1.0
    ensures RotatedInPlaceAsWritten(Segment(1.0, 0.0, 0.0, 0.0, 0.0), 0.0, 1.0).sy == 0.0
  {
  }

  /** `LineSegment_t` as a mutable struct. */
  class LineSegment {
    var sx: real
    var sy: real
    var ex: real
    var ey: real
    var radius: real

    function Value(): Segment
      reads this
    {
      Segment(sx, sy, ex, ey, radius)
    }

    constructor (g: Segment)
      ensures Value() == g
    {
      sx, sy, ex, ey, radius := g.sx, g.sy, g.ex, g.ey, g.radius;
    }

    /** `scale(s)`: leaves the fields equal to `scaled(s)`. */
    method Scale(s: real)
      modifies this
      ensures Value() == Scaled(old(Value()), s)
    {
      sx := sx * s;
      sy := sy * s;
      ex := ex * s;
      ey := ey * s;
    }

    /** `translate(x, y)`: leaves the fields equal to `translated(x, y)`. */
    method Translate(x: real, y: real)
      modifies this
      ensures Value() == Translated(old(Value()), x, y)
    {
      sx := sx + x;
      sy := sy + y;
      ex := ex + x;
      ey := ey + y;
    }

    /** `rotate(rads)` exactly as written, with `c = cosf(rads)` and `s = sinf(rads)`. */
    method RotateAsWritten(rads: real, m: Libm)
      modifies this
      ensures Value() == RotatedInPlaceAsWritten(old(Value()), m.cos(rads), m.sin(rads))
    {
      var c, s := m.cos(rads), m.sin(rads);
      ghost var g := Value();
      sx := sx * c - sy * s;
      sy := sy * c + sx * s;
      ex := ex * c - ey * s;
      ey := ey * c + ex * s;
      assert Value() == RotatedInPlaceAsWritten(g, c, s);
    }

    /** `rotate(rads)` as evidently intended: the endpoints rotated about the origin exactly as
        `rotated` does, with the radius kept. By `RotatedKeepsNorms`, a true rotation keeps each
        endpoint's distance from the origin. */
    method Rotate(rads: real, m: Libm)
      modifies this
      ensures Value() == Rotated(old(Value()), m.cos(rads), m.sin(rads)).(radius := old(radius))
    {
      var c, s := m.cos(rads), m.sin(rads);
      sx, sy := sx * c - sy * s, sy * c + sx * s;
      ex, ey := ex * c - ey * s, ey * c + ex * s;
    }
  }

  /** When `cosf` and `sinf` of the angle satisfy c² + s² = 1, the corrected in-place rotation
      keeps both endpoints at their distance from the origin. */
  method RotateKeepsNorms(seg: LineSegment, rads: real, m: Libm)
    requires m.cos(rads) * m.cos(rads) + m.sin(rads) * m.sin(rads) == 1.0
    modifies seg
    ensures seg.sx * seg.sx + seg.sy * seg.sy == old(seg.sx * seg.sx + seg.sy * seg.sy)
    ensures seg.ex * seg.ex + seg.ey * seg.ey == old(seg.ex * seg.ex + seg.ey * seg.ey)
    ensures seg.radius == old(seg.radius)
  {
    ghost var g := seg.Value();
    seg.Rotate(rads, m);
    RotatedKeepsNorms(g, m.cos(rads), m.sin(rads));
  }
}
