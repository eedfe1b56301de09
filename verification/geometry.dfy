/**
 Plane geometry shared by the corner generator and the overlay: points,
 rectangles, path segments, and the few point maps (shift, scale, axis
 reorientation) from which every corner outline is built.

 Corner outlines and drawn shapes are in the overlay view's local
 coordinates, which are flipped: the origin is the top-left of the view and
 y grows downward. Screen and window frames are in AppKit's global screen
 coordinates instead, where y grows upward and `MaxY` is the top edge.
 `CGFloat` is modelled as `real`.
 */
module Geometry {

  datatype Point = Point(x: real, y: real)

  /** An axis-aligned rectangle given by origin and size, as a `CGRect`. */
  datatype Rect = Rect(x: real, y: real, width: real, height: real) {
    function MaxX(): real { x + width }
    function MaxY(): real { y + height }

    /** Closed containment, for rectangles of non-negative size. */
    predicate Contains(p: Point) {
      x <= p.x <= MaxX() && y <= p.y <= MaxY()
    }

    /** Strict containment: the point is inside, off the border. */
    predicate Interior(p: Point) {
      x < p.x < MaxX() && y < p.y < MaxY()
    }
  }

  /** One element of a `CGPath`: the calls `move`, `addLine`, `addCurve`, `closeSubpath`. */
  datatype Segment =
    | MoveTo(p: Point)
    | LineTo(p: Point)
    | CurveTo(c1: Point, c2: Point, to: Point)
    | ClosePath

  type Path = seq<Segment>

  /**
   A reorientation of the axes: optionally swap x and y, then optionally
   negate each coordinate. Each of these is an isometry of the plane that
   fixes the origin.
   */
  datatype Frame = Frame(swap: bool, negX: bool, negY: bool)

  datatype PointMap =
    | Shift(dx: real, dy: real)
    | Scale(k: real)
    | Reorient(f: Frame)

  function Orient(f: Frame, p: Point): Point {
    var a := if f.swap then p.y else p.x;
    var b := if f.swap then p.x else p.y;
    Point(if f.negX then -a else a, if f.negY then -b else b)
  }

  function Apply(m: PointMap, p: Point): Point {
    match m
    case Shift(dx, dy) => Point(p.x + dx, p.y + dy)
    case Scale(k) => Point(k * p.x, k * p.y)
    case Reorient(f) => Orient(f, p)
  }

  function MapSegment(m: PointMap, s: Segment): Segment {
    match s
    case MoveTo(p) => MoveTo(Apply(m, p))
    case LineTo(p) => LineTo(Apply(m, p))
    case CurveTo(c1, c2, to) => CurveTo(Apply(m, c1), Apply(m, c2), Apply(m, to))
    case ClosePath => ClosePath
  }

  /** The path with every end point and control point sent through `m`; the segment kinds are kept. */
  function MapPath(m: PointMap, path: Path): (r: Path)
    ensures |r| == |path|
    ensures forall i :: 0 <= i < |path| ==> r[i] == MapSegment(m, path[i])
  {
    if path == [] then [] else [MapSegment(m, path[0])] + MapPath(m, path[1..])
  }

  /** The end points and control points a segment contributes, in drawing order. */
  function SegmentPoints(s: Segment): seq<Point> {
    match s
    case MoveTo(p) => [p]
    case LineTo(p) => [p]
    case CurveTo(c1, c2, to) => [c1, c2, to]
    case ClosePath => []
  }

  /** Every vertex and control point of a path, in drawing order. */
  function Points(path: Path): seq<Point> {
    if path == [] then [] else SegmentPoints(path[0]) + Points(path[1..])
  }

  /** A point of a path belongs to one of its segments. */
  lemma {:induction false} PointInSomeSegment(q: Point, path: Path)
    requires q in Points(path)
    ensures exists i :: 0 <= i < |path| && q in SegmentPoints(path[i])
  {
    if q !in SegmentPoints(path[0]) {
      assert q in Points(path[1..]);
      PointInSomeSegment(q, path[1..]);
      var i :| 0 <= i < |path[1..]| && q in SegmentPoints(path[1..][i]);
      assert path[i + 1] == path[1..][i];
    }
  }

  /** Every point of every segment is a point of the path. */
  lemma {:induction false} SegmentPointInPath(q: Point, path: Path, i: nat)
    requires i < |path| && q in SegmentPoints(path[i])
    ensures q in Points(path)
  {
    if i > 0 {
      assert path[1..][i - 1] == path[i];
      SegmentPointInPath(q, path[1..], i - 1);
    }
  }

  function MapPoints(m: PointMap, ps: seq<Point>): (r: seq<Point>)
    ensures |r| == |ps|
    ensures forall i :: 0 <= i < |ps| ==> r[i] == Apply(m, ps[i])
  {
    seq(|ps|, i requires 0 <= i < |ps| => Apply(m, ps[i]))
  }

  /** Mapping a path and then listing its points is listing its points and then mapping them. */
  lemma {:induction false} PointsOfMapPath(m: PointMap, path: Path)
    ensures Points(MapPath(m, path)) == MapPoints(m, Points(path))
  {
    if path != [] {
      PointsOfMapPath(m, path[1..]);
      assert MapPath(m, path)[1..] == MapPath(m, path[1..]);
      assert SegmentPoints(MapSegment(m, path[0])) == MapPoints(m, SegmentPoints(path[0]));
    }
  }

  /** Mapping a seven-segment path maps each of its segments. */
  lemma MapPathOfSeven(m: PointMap, s0: Segment, s1: Segment, s2: Segment, s3: Segment,
                       s4: Segment, s5: Segment, s6: Segment)
    ensures MapPath(m, [s0, s1, s2, s3, s4, s5, s6])
         == [MapSegment(m, s0), MapSegment(m, s1), MapSegment(m, s2), MapSegment(m, s3),
             MapSegment(m, s4), MapSegment(m, s5), MapSegment(m, s6)]
  {
  }

  /** Two paths mapped by maps that agree pointwise are equal. */
  lemma MapPathCompose(a1: PointMap, a2: PointMap, b1: PointMap, b2: PointMap, path: Path)
    requires forall q :: Apply(a1, Apply(a2, q)) == Apply(b1, Apply(b2, q))
    ensures MapPath(a1, MapPath(a2, path)) == MapPath(b1, MapPath(b2, path))
  {
    var lhs, rhs := MapPath(a1, MapPath(a2, path)), MapPath(b1, MapPath(b2, path));
    forall i | 0 <= i < |path| ensures lhs[i] == rhs[i] {
      match path[i]
      case MoveTo(p) =>
      case LineTo(p) =>
      case CurveTo(c1, c2, to) =>
      case ClosePath =>
    }
  }

  /** A map that fixes every point fixes every path. */
  lemma MapPathIdentity(m: PointMap, path: Path)
    requires forall q :: Apply(m, q) == q
    ensures MapPath(m, path) == path
  {
    forall i | 0 <= i < |path| ensures MapPath(m, path)[i] == path[i] {
      match path[i]
      case MoveTo(p) =>
      case LineTo(p) =>
      case CurveTo(c1, c2, to) =>
      case ClosePath =>
    }
  }

  /** Mapping by `m2` and then by a map that undoes it gives the path back. */
  lemma MapPathInverse(m1: PointMap, m2: PointMap, path: Path)
    requires forall q :: Apply(m1, Apply(m2, q)) == q
    ensures MapPath(m1, MapPath(m2, path)) == path
  {
    var back := MapPath(m1, MapPath(m2, path));
    forall i | 0 <= i < |path| ensures back[i] == path[i] {
      match path[i]
      case MoveTo(p) =>
      case LineTo(p) =>
      case CurveTo(c1, c2, to) =>
      case ClosePath =>
    }
  }

  /** Reorienting the axes commutes with scaling about the origin. */
  lemma OrientCommutesWithScale(f: Frame, k: real, p: Point)
    ensures Orient(f, Apply(Scale(k), p)) == Apply(Scale(k), Orient(f, p))
  {
    assert k * -p.x == -(k * p.x) && k * -p.y == -(k * p.y);
  }

  lemma ReorientCommutesWithScale(f: Frame, k: real, path: Path)
    ensures MapPath(Reorient(f), MapPath(Scale(k), path)) == MapPath(Scale(k), MapPath(Reorient(f), path))
  {
    forall q ensures Apply(Reorient(f), Apply(Scale(k), q)) == Apply(Scale(k), Apply(Reorient(f), q)) {
      OrientCommutesWithScale(f, k, q);
    }
    MapPathCompose(Reorient(f), Scale(k), Scale(k), Reorient(f), path);
  }

  function Dist2(p: Point, q: Point): real {
    (p.x - q.x) * (p.x - q.x) + (p.y - q.y) * (p.y - q.y)
  }

  /** Shifts and reorientations are isometries: they keep every squared distance. */
  lemma RigidMapsKeepDistance(m: PointMap, p: Point, q: Point)
    requires !m.Scale?
    ensures Dist2(Apply(m, p), Apply(m, q)) == Dist2(p, q)
  {
  }

  /** Two point lists are congruent when they pair up with equal squared distances. */
  ghost predicate Congruent(ps: seq<Point>, qs: seq<Point>) {
    && |ps| == |qs|
    && forall i, j :: 0 <= i < |ps| && 0 <= j < |ps| ==> Dist2(ps[i], ps[j]) == Dist2(qs[i], qs[j])
  }

  lemma RigidMapIsCongruence(m: PointMap, ps: seq<Point>)
    requires !m.Scale?
    ensures Congruent(MapPoints(m, ps), ps)
  {
    forall i, j | 0 <= i < |ps| && 0 <= j < |ps|
      ensures Dist2(MapPoints(m, ps)[i], MapPoints(m, ps)[j]) == Dist2(ps[i], ps[j])
    {
      RigidMapsKeepDistance(m, ps[i], ps[j]);
    }
  }

  lemma CongruentSymmetric(ps: seq<Point>, qs: seq<Point>)
    requires Congruent(ps, qs)
    ensures Congruent(qs, ps)
  {
  }

  lemma CongruentTransitive(ps: seq<Point>, qs: seq<Point>, ts: seq<Point>)
    requires Congruent(ps, qs) && Congruent(qs, ts)
    ensures Congruent(ps, ts)
  {
  }

  /** Every vertex and control point of `path` lies in `box`. */
  ghost predicate Within(path: Path, box: Rect) {
    forall q :: q in Points(path) ==> box.Contains(q)
  }

  /** Every end point and control point of `s` lies in `box`. */
  ghost predicate SegmentWithin(s: Segment, box: Rect) {
    forall q :: q in SegmentPoints(s) ==> box.Contains(q)
  }

  /** A path lies in a box when each of its segments does. */
  lemma {:induction false} WithinBySegments(path: Path, box: Rect)
    requires forall i :: 0 <= i < |path| ==> SegmentWithin(path[i], box)
    ensures Within(path, box)
  {
    if path != [] {
      WithinBySegments(path[1..], box);
      assert SegmentWithin(path[0], box);
      forall q | q in Points(path) ensures box.Contains(q) {
        if q !in SegmentPoints(path[0]) {
          assert q in Points(path[1..]);
        }
      }
    }
  }

  /** The seven-segment case of `WithinBySegments`, for outlines written out segment by segment. */
  lemma WithinSeven(s0: Segment, s1: Segment, s2: Segment, s3: Segment, s4: Segment, s5: Segment, s6: Segment, box: Rect)
    requires SegmentWithin(s0, box) && SegmentWithin(s1, box) && SegmentWithin(s2, box) && SegmentWithin(s3, box)
    requires SegmentWithin(s4, box) && SegmentWithin(s5, box) && SegmentWithin(s6, box)
    ensures Within([s0, s1, s2, s3, s4, s5, s6], box)
  {
    WithinBySegments([s0, s1, s2, s3, s4, s5, s6], box);
  }

  /** A path within a box is within every box that contains it. */
  lemma WithinLarger(path: Path, b1: Rect, b2: Rect)
    requires Within(path, b1)
    requires forall q :: b1.Contains(q) ==> b2.Contains(q)
    ensures Within(path, b2)
  {
  }

  /** A map that sends the box `b1` into the box `b2` sends every path within `b1` to a path within `b2`. */
  lemma MapPathWithin(m: PointMap, path: Path, b1: Rect, b2: Rect)
    requires Within(path, b1)
    requires forall q :: b1.Contains(q) ==> b2.Contains(Apply(m, q))
    ensures Within(MapPath(m, path), b2)
  {
    PointsOfMapPath(m, path);
    var src := Points(path);
    var pts := Points(MapPath(m, path));
    forall q | q in pts ensures b2.Contains(q) {
      var i :| 0 <= i < |pts| && pts[i] == q;
      assert src[i] in src;
    }
  }
}
