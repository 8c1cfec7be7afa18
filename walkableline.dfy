/** A straight stretch a walker follows (ext/world/WalkableLine.hpp): the line from a start to an
    end point, with its direction and length cached when the start point is set. */
module WalkableLines {
  import opened Prelude

  /** The Euclidean distance between two points, with `sqrt` uninterpreted. */
  function LineLength(a: Vec2, b: Vec2, m: Libm): (d: real)
    ensures d == m.sqrt((b.x - a.x) * (b.x - a.x) + (b.y - a.y) * (b.y - a.y))
  {
    SquareOfDifference(a.x, b.x);
    SquareOfDifference(a.y, b.y);
    m.sqrt((a.x - b.x) * (a.x - b.x) + (a.y - b.y) * (a.y - b.y))
  }

  lemma {:induction false} SumOfSquaresNonNegative(u: real, v: real)
    ensures u * u + v * v >= 0.0
  {
  }

  /** The length of a line is non-negative when `sqrt` of a non-negative number is. */
  lemma {:induction false} LineLengthNonNegative(a: Vec2, b: Vec2, m: Libm)
    requires RootsNonNegative(m)
    ensures LineLength(a, b, m) >= 0.0
  {
    SumOfSquaresNonNegative(a.x - b.x, a.y - b.y);
  }

  /** A line from a point to itself has length `sqrt(0)`. */
  lemma {:induction false} DegenerateLine(a: Vec2, m: Libm)
    ensures LineLength(a, a, m) == m.sqrt(0.0)
  {
    assert (a.x - a.x) * (a.x - a.x) + (a.y - a.y) * (a.y - a.y) == 0.0;
  }

  /** `WalkableLine`. */
  class WalkableLine {
    var start: Vec2
    var end: Vec2
    var cosAngle: real
    var sinAngle: real
    var angle: real
    var length: real

    /** The cached values are those `calculate()` derives from the current start and end. */
    predicate Calculated(m: Libm)
      reads this
    {
      && angle == m.atan2(end.y - start.y, end.x - start.x)
      && sinAngle == m.sin(angle)
      && cosAngle == m.cos(angle)
      && length == LineLength(start, end, m)
    }

    /** `calculate()`: direction (`atan2`), its sine and cosine, and the length. */
    method Calculate(m: Libm)
      modifies this
      ensures Calculated(m)
      ensures start == old(start) && end == old(end)
    {
      angle := m.atan2(end.y - start.y, end.x - start.x);
      sinAngle := m.sin(angle);
      cosAngle := m.cos(angle);
      length := m.sqrt((start.x - end.x) * (start.x - end.x) + (start.y - end.y) * (start.y - end.y));
    }

    /** `WalkableLine(s, e)`. */
    constructor (s: Vec2, e: Vec2, m: Libm)
      ensures start == s && end == e && Calculated(m)
    {
      start, end := s, e;
      new;
      Calculate(m);
    }

    /** `isInTrack(position)`: strictly between the two ends of the line. */
    function IsInTrack(position: real): (b: bool)
      reads this
      ensures b <==> 0.0 < position < length
      ensures b ==> length > 0.0
    {
      position > 0.0 && position < length
    }

    /** `reset(startPoint)`: moves the start and recomputes the cached values, but only when the
        new start differs from the old one in both coordinates; answers whether it did. The end
        point never moves. */
    method Reset(startPoint: Vec2, m: Libm) returns (changed: bool)
      modifies this
      ensures changed <==> old(start).x != startPoint.x && old(start).y != startPoint.y
      ensures changed ==> start == startPoint && Calculated(m)
      ensures !changed ==> start == old(start) && angle == old(angle) && length == old(length)
      ensures !changed ==> sinAngle == old(sinAngle) && cosAngle == old(cosAngle)
      ensures end == old(end)
    {
      if start.x != startPoint.x && start.y != startPoint.y {
        start := startPoint;
        Calculate(m);
        return true;
      }
      return false;
    }

    /** `getPoint(lenstep)`: the point `lenstep` along the cached direction from the start. */
    function GetPoint(lenstep: real): (p: Vec2)
      reads this
      ensures lenstep == 0.0 ==> p == start
    {
      Vec2(lenstep * cosAngle + start.x, lenstep * sinAngle + start.y)
    }
  }

  /** Points further along the line move by the step times the direction: all of them lie on
      one straight line through the start. */
  lemma {:induction false} GetPointSteps(w: WalkableLine, a: real, b: real)
    ensures w.GetPoint(a + b).x - w.GetPoint(a).x == b * w.cosAngle
    ensures w.GetPoint(a + b).y - w.GetPoint(a).y == b * w.sinAngle
  {
    assert (a + b) * w.cosAngle == a * w.cosAngle + b * w.cosAngle;
    assert (a + b) * w.sinAngle == a * w.sinAngle + b * w.sinAngle;
  }

  /** Whether a reset is refused or accepted, the cached values stay consistent with the
      endpoints: `Calculated` is an invariant of `reset`, and the length stays non-negative. */
  method ResetKeepsCalculated(w: WalkableLine, p: Vec2, m: Libm) returns (changed: bool)
    requires w.Calculated(m)
    modifies w
    ensures w.Calculated(m)
    ensures RootsNonNegative(m) ==> w.length >= 0.0
  {
    changed := w.Reset(p, m);
    if RootsNonNegative(m) {
      LineLengthNonNegative(w.start, w.end, m);
    }
  }
}
