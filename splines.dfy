/** The control-point list of a Catmull-Rom spline (ext/world/Splines.hpp): editing the list,
    choosing the four control points around a curve parameter, and tracking the checkpoint
    a player is heading for. */
module Splines {
  import opened Prelude

  /** `sPoint2D`: a control point and the length of the curve segment that starts at it. */
  datatype Point2D = Point2D(x: real, y: real, length: real)

  /** `sPoint2D::translate`: moves the point by `w` and keeps its segment length. */
  function Translate(p: Point2D, w: Point2D): (q: Point2D)
    ensures q.length == p.length
    ensures q.x - p.x == w.x && q.y - p.y == w.y
  {
    p.(x := p.x + w.x, y := p.y + w.y)
  }

  /** `sPoint2D::translated`: a new point at the moved position. Its length member is
      value-initialised, so it is zero whatever the length of `p`. */
  function Translated(p: Point2D, w: Point2D): (q: Point2D)
    ensures q.length == 0.0
    ensures q.x - p.x == w.x && q.y - p.y == w.y
  {
    Point2D(p.x + w.x, p.y + w.y, 0.0)
  }

  /** `sPoint2D::scaled`: a new point with both coordinates multiplied by `s`, length zero. */
  function Scaled(p: Point2D, s: real): (q: Point2D)
    ensures q.length == 0.0
    ensures s == 1.0 ==> q.x == p.x && q.y == p.y
  {
    Point2D(p.x * s, p.y * s, 0.0)
  }

  function Negated(w: Point2D): Point2D {
    Point2D(-w.x, -w.y, w.length)
  }

  /** Translating by `w` and then by `-w` restores the point, length included. */
  lemma {:induction false} TranslateRoundTrip(p: Point2D, w: Point2D)
    ensures Translate(Translate(p, w), Negated(w)) == p
  {
    var q := Translate(Translate(p, w), Negated(w));
    assert q.x == p.x && q.y == p.y && q.length == p.length;
  }

  /** `translated` agrees with `translate` on the position and differs only in dropping the length. */
  lemma {:induction false} TranslatedIsTranslateWithoutLength(p: Point2D, w: Point2D)
    ensures Translated(p, w) == Translate(p, w).(length := 0.0)
  {
  }

  /** The Euclidean distance the spline uses, with `sqrt` left uninterpreted. */
  function PointDistance(a: Point2D, b: Point2D, m: Libm): (d: real)
    ensures a.x == b.x && a.y == b.y ==> d == m.sqrt(0.0)
  {
    var square := (a.x - b.x) * (a.x - b.x) + (a.y - b.y) * (a.y - b.y);
    assert a.x == b.x && a.y == b.y ==> square == 0.0;
    m.sqrt(square)
  }

  /** The distance does not depend on the order of its arguments, and is non-negative when
      `sqrt` is. */
  lemma {:induction false} PointDistanceSymmetric(a: Point2D, b: Point2D, m: Libm)
    ensures PointDistance(a, b, m) == PointDistance(b, a, m)
    ensures RootsNonNegative(m) ==> PointDistance(a, b, m) >= 0.0
  {
    SquareOfDifference(a.x, b.x);
    SquareOfDifference(a.y, b.y);
  }

  /** The point halfway between `before` and `after`, as `insertPointInterpolating` builds it. */
  function Midpoint(before: Point2D, after: Point2D): (mid: Point2D)
    ensures mid.length == 0.0
    ensures mid.x - before.x == after.x - mid.x && mid.y - before.y == after.y - mid.y
  {
    Point2D(0.5 * (after.x + before.x), 0.5 * (after.y + before.y), 0.0)
  }

  /** The list after `points.insert(points.begin() + i + 1, p)`. */
  function InsertAfter(s: seq<Point2D>, i: nat, p: Point2D): (r: seq<Point2D>)
    requires i < |s|
    ensures |r| == |s| + 1 && r[i + 1] == p
    ensures forall j :: 0 <= j <= i ==> r[j] == s[j]
    ensures forall j :: i < j < |s| ==> r[j + 1] == s[j]
  {
    s[..i + 1] + [p] + s[i + 1..]
  }

  /** The list after `points.erase(points.begin() + i)`. */
  function DeleteAt(s: seq<Point2D>, i: nat): (r: seq<Point2D>)
    requires i < |s|
    ensures |r| == |s| - 1
    ensures forall j :: 0 <= j < i ==> r[j] == s[j]
    ensures forall j :: i <= j < |r| ==> r[j] == s[j + 1]
  {
    s[..i] + s[i + 1..]
  }

  /** Deleting the point just inserted gives back the original list. */
  lemma {:induction false} DeleteUndoesInsert(s: seq<Point2D>, i: nat, p: Point2D)
    requires i < |s|
    ensures DeleteAt(InsertAfter(s, i, p), i + 1) == s
  {
    var r := DeleteAt(InsertAfter(s, i, p), i + 1);
    assert forall j :: 0 <= j < |s| ==> r[j] == s[j];
  }

  /** Inserting back the point just deleted, after its predecessor, gives back the original list. */
  lemma {:induction false} InsertUndoesDelete(s: seq<Point2D>, i: nat)
    requires 0 < i < |s|
    ensures InsertAfter(DeleteAt(s, i), i - 1, s[i]) == s
  {
    var r := InsertAfter(DeleteAt(s, i), i - 1, s[i]);
    assert forall j :: 0 <= j < |s| ==> r[j] == s[j];
  }

  /** The four control-point indices around a curve position. */
  datatype ControlIndices = ControlIndices(p0: int, p1: int, p2: int, p3: int)

  /** A value representable in a 32-bit `int`. */
  predicate IntRange(k: int) {
    -0x8000_0000 <= k < 0x8000_0000
  }

  /** `if (p >= points.size()) p = (int) points.size() - 1;` — the comparison converts `p`
      to `size_t`, so a negative `p` is clamped as well. */
  function ClampToLast(p: int, size: nat): (q: int)
    ensures 0 <= p < size ==> q == p
    ensures ToSizeT(p) >= size ==> q == size - 1
    ensures IntRange(p) && size < 0x8000_0000 && (p < 0 || size <= p) ==> q == size - 1
    ensures IntRange(p) && 0 < size < 0x8000_0000 ==> 0 <= q < size
  {
    if ToSizeT(p) >= size then size - 1 else p
  }

  /** The indices chosen for a spline that is not looped: `p1 = (int) t + 1` and its two
      successors clamped to the last point, and `p0 = p1 - 1` raised from -1 to 0 but never
      clamped from above. */
  function OpenIndices(size: nat, t: real): (q: ControlIndices)
    ensures q.p0 == if Trunc(t) == -1 then 0 else Trunc(t)
    ensures 0 < size < 0x8000_0000 && IntRange(Trunc(t) + 3) ==>
      0 <= q.p1 < size && 0 <= q.p2 < size && 0 <= q.p3 < size
    ensures -1 <= Trunc(t) && Trunc(t) + 3 < size ==> q.p1 == Trunc(t) + 1 && q.p2 == Trunc(t) + 2 && q.p3 == Trunc(t) + 3
    ensures 0 < size && -1 <= Trunc(t) && IntRange(Trunc(t) + 3) ==>
      && q.p1 == (if Trunc(t) + 1 < size then Trunc(t) + 1 else size - 1)
      && q.p2 == (if Trunc(t) + 2 < size then Trunc(t) + 2 else size - 1)
      && q.p3 == (if Trunc(t) + 3 < size then Trunc(t) + 3 else size - 1)
  {
    var p1 := Trunc(t) + 1;
    var p2 := p1 + 1;
    var p3 := p2 + 1;
    var p0 := p1 - 1;
    ControlIndices(if p0 == -1 then 0 else p0, ClampToLast(p1, size), ClampToLast(p2, size), ClampToLast(p3, size))
  }

  /** The indices chosen for a looped spline: `p1 = (int) t % size`, where the `int` is
      converted to `size_t` before the reduction, its two cyclic successors, and its cyclic
      predecessor. */
  function LoopedIndices(size: nat, t: real): (q: ControlIndices)
    requires size > 0
    ensures 0 <= q.p0 < size && 0 <= q.p1 < size && 0 <= q.p2 < size && 0 <= q.p3 < size
    ensures q.p2 == (q.p1 + 1) % size && q.p3 == (q.p2 + 1) % size && (q.p0 + 1) % size == q.p1
    ensures 0 <= Trunc(t) < SIZE_T_MODULUS ==> q.p1 == Trunc(t) % size
  {
    var p1 := ToSizeT(Trunc(t)) % size;
    var p2 := (p1 + 1) % size;
    var p3 := (p2 + 1) % size;
    var p0 := CyclicPredecessor(p1, size);
    ControlIndices(p0, p1, p2, p3)
  }

  /** `p1 >= 1 ? p1 - 1 : (int) points.size() - 1`: the index before `p1` going round the loop. */
  function CyclicPredecessor(p1: nat, size: nat): (p0: nat)
    requires p1 < size
    ensures p0 < size && (p0 + 1) % size == p1
  {
    if p1 >= 1 then
      assert (p1 - 1 + 1) % size == p1;
      p1 - 1
    else
      assert (size - 1 + 1) % size == 0;
      size - 1
  }

  predicate IndicesInRange(q: ControlIndices, size: nat) {
    0 <= q.p0 < size && 0 <= q.p1 < size && 0 <= q.p2 < size && 0 <= q.p3 < size
  }

  /** On a spline that is not looped, all four indices address a point exactly when the
      truncated parameter lies in [-1, size): `p0` is the one index never clamped from above. */
  lemma {:induction false} OpenIndicesInRange(size: nat, t: real)
    requires 0 < size < 0x8000_0000 && IntRange(Trunc(t) + 3)
    ensures IndicesInRange(OpenIndices(size, t), size) <==> -1 <= Trunc(t) < size
  {
  }

  /** `IsInTrack` on a spline that is not looped: `(int) t + 1 < points.size()`, compared as
      `size_t`. */
  function OpenInTrack(size: nat, t: real): bool {
    ToSizeT(Trunc(t) + 1) < size
  }

  /** In the 32-bit range, an open spline is "in track" exactly when the truncated parameter
      lies in [-1, size - 1); then every control index addresses a point. */
  lemma {:induction false} OpenInTrackMeaning(size: nat, t: real)
    ensures size < 0x8000_0000 && IntRange(Trunc(t) + 3) ==>
      (OpenInTrack(size, t) <==> -1 <= Trunc(t) < size - 1)
    ensures size < 0x8000_0000 && IntRange(Trunc(t) + 3) && OpenInTrack(size, t) ==>
      IndicesInRange(OpenIndices(size, t), size)
  {
    if size < 0x8000_0000 && IntRange(Trunc(t) + 3) {
      var k := Trunc(t) + 1;
      if k < 0 {
        assert ToSizeT(k) == k + SIZE_T_MODULUS;
      }
      if OpenInTrack(size, t) {
        OpenIndicesInRange(size, t);
      }
    }
  }

  /** `NearCheckpoints_t`: what the tracker knows about the checkpoint a player is heading for. */
  class NearCheckpoints {
    var near: bool
    var wrongway: int
    var mindistance: real
    var point: int
    var rawPoint: Point2D

    /** The member initialisers: not near, no wrong-way count, no distance yet; `point` and
        `rawPoint` have no initialiser and start with whatever the caller supplies. */
    constructor (point0: int, rawPoint0: Point2D)
      ensures !near && wrongway == 0 && mindistance == 0.0
      ensures point == point0 && rawPoint == rawPoint0
    {
      near, wrongway, mindistance := false, 0, 0.0;
      point, rawPoint := point0, rawPoint0;
    }
  }

  /** The test of `NearControlPoint` that counts as progress: the player got closer, the
      checkpoint changed (compared as `unsigned`), or no distance was recorded yet. */
  predicate Approaching(mindistance: real, point: int, index: uint32, d: real) {
    mindistance > d || ToUnsigned(point) != index || mindistance == 0.0
  }

  /** The saturating wrong-way counter: progress counts down to zero, anything else counts up
      to 100. */
  function StepWrongway(w: int, approaching: bool): (w': int)
    ensures approaching ==> 0 <= w' && (w > 0 ==> w' == w - 1) && (w <= 0 ==> w' == 0)
    ensures !approaching ==> w' <= 100 && (w < 100 ==> w' == w + 1) && (w >= 100 ==> w' == 100)
    ensures 0 <= w <= 100 ==> 0 <= w' <= 100
  {
    if approaching then (if w - 1 < 0 then 0 else w - 1)
    else (if w + 1 > 100 then 100 else w + 1)
  }

  /** Heading the wrong way long enough pins the counter at 100. */
  lemma {:induction false} WrongwaySaturates(w: int, n: nat)
    requires 0 <= w && n >= 100
    ensures StepWrongwayN(w, n) == 100
  {
    StepWrongwayNBound(w, n);
  }

  /** `n` steps of the counter without progress. */
  function StepWrongwayN(w: int, n: nat): (r: int)
    ensures n > 0 ==> r <= 100
    ensures 0 <= w <= 100 ==> w <= r <= 100
  {
    if n == 0 then w else StepWrongway(StepWrongwayN(w, n - 1), false)
  }

  lemma {:induction false} StepWrongwayNBound(w: int, n: nat)
    requires 0 <= w
    ensures n > 0 ==> StepWrongwayN(w, n) == if w + n > 100 then 100 else w + n
  {
    if n > 0 {
      StepWrongwayNBound(w, n - 1);
    }
  }

  /** `sSpline`: the control points and whether the curve closes on itself. */
  class Spline {
    var points: seq<Point2D>
    var looped: bool

    /** An empty spline; `bIsLooped` defaults to true. */
    constructor ()
      ensures points == [] && looped
    {
      points, looped := [], true;
    }

    /** `IsInTrack`: always true for a looped spline, otherwise whether `(int) t + 1` indexes
        a point. */
    function IsInTrack(t: real): (b: bool)
      reads this
      ensures looped ==> b
      ensures !looped && |points| < 0x8000_0000 && IntRange(Trunc(t) + 3) ==>
        (b <==> -1 <= Trunc(t) < |points| - 1)
    {
      OpenInTrackMeaning(|points|, t);
      if !looped then OpenInTrack(|points|, t) else true
    }

    /** The index selection at the top of `GetSplinePoint(t)`. A looped spline with no points
        reduces modulo zero, which C++ leaves undefined, so a looped spline must have points.
        Every index addresses a point when the spline is looped, or when `IsInTrack(t)`. */
    function SplineIndices(t: real): (q: ControlIndices)
      reads this
      requires looped ==> |points| > 0
      ensures looped ==> IndicesInRange(q, |points|)
      ensures !looped && IsInTrack(t) && |points| < 0x8000_0000 && IntRange(Trunc(t) + 3) ==>
        IndicesInRange(q, |points|)
    {
      OpenInTrackMeaning(|points|, t);
      if looped then LoopedIndices(|points|, t) else OpenIndices(|points|, t)
    }

    /** `GetControlPoint`: `points.at(index)`, which throws when `index` is past the end. */
    function GetControlPoint(index: uint32): (r: Result<Point2D>)
      reads this
      ensures r.Ok? <==> index < |points|
      ensures r.Ok? ==> r.value == points[index]
    {
      if index < |points| then Ok(points[index]) else Err("out_of_range")
    }

    /** `insertPoint(i, p)`: inserts `p` right after point `i` and answers where it went, or
        answers nothing and changes nothing when `i` is past the end. */
    method InsertPoint(i: uint32, p: Point2D) returns (r: Option<nat>)
      modifies this
      ensures looped == old(looped)
      ensures r.Some? <==> i < |old(points)|
      ensures r.Some? ==> r.value == i + 1 && points == InsertAfter(old(points), i, p) && points[r.value] == p
      ensures r.None? ==> points == old(points)
    {
      if i < |points| {
        points := InsertAfter(points, i, p);
        return Some(i + 1);
      }
      return None;
    }

    /** `insertPointInterpolating(i)`: inserts after point `i` the midpoint of point `i` and
        its cyclic successor; true exactly when `i` indexes a point. */
    method InsertPointInterpolating(i: uint32) returns (ok: bool)
      modifies this
      ensures looped == old(looped)
      ensures ok <==> i < |old(points)|
      ensures ok ==> points == InsertAfter(old(points), i, Midpoint(old(points)[i], old(points)[(i + 1) % |old(points)|]))
      ensures !ok ==> points == old(points)
    {
      if i < |points| {
        var before := points[i];
        var after := points[(i + 1) % |points|];
        var r := InsertPoint(i, Midpoint(before, after));
        return r.Some?;
      }
      return false;
    }

    /** `deletePoint(i)`: removes point `i` when it exists; any other `i` changes nothing. */
    method DeletePoint(i: int)
      modifies this
      ensures looped == old(looped)
      ensures 0 <= i < |old(points)| ==> points == DeleteAt(old(points), i)
      ensures !(0 <= i < |old(points)|) ==> points == old(points)
    {
      if i >= 0 && i < |points| {
        points := DeleteAt(points, i);
      }
    }

    /** `NearControlPoint(index, target, range, info)`: measures the distance from checkpoint
        `index` to `target` and updates the tracker. `points.at(index)` throws when `index` is
        past the end; then `ok` is false and the tracker is untouched. */
    method NearControlPoint(index: uint32, target: Point2D, range: real, info: NearCheckpoints, m: Libm)
      returns (ok: bool)
      modifies info
      ensures ok <==> index < |points|
      ensures !ok ==> unchanged(info)
      ensures ok ==>
        var d := PointDistance(points[index], target, m);
        var progress := Approaching(old(info.mindistance), old(info.point), index, d);
        && info.wrongway == StepWrongway(old(info.wrongway), progress)
        && info.mindistance == (if progress then d else old(info.mindistance))
        && info.point == (if progress then ToSigned(index) else old(info.point))
        && ToUnsigned(info.point) == index
        && info.near == (d < range)
        && info.rawPoint == points[index]
    {
      if index >= |points| {
        return false;
      }
      var targetPoint := points[index];
      var d := PointDistance(targetPoint, target, m);
      if info.mindistance > d || ToUnsigned(info.point) != index || info.mindistance == 0.0 {
        info.wrongway := info.wrongway - 1;
        if info.wrongway < 0 {
          info.wrongway := 0;
        }
        info.mindistance := d;
        info.point := ToSigned(index);
      } else {
        info.wrongway := info.wrongway + 1;
        if info.wrongway > 100 {
          info.wrongway := 100;
        }
      }
      info.near := PointDistance(points[index], target, m) < range;
      info.rawPoint := targetPoint;
      return true;
    }
  }
}
