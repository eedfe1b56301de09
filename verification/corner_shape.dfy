/**
 The continuous-curvature corner outline of `CornerView.cornerPath`.

 A corner path is move, line, cubic, line, cubic, cubic, close. Every
 coordinate is the corner's anchor plus a calibration ratio times the
 radius. The four corners share one construction: the top-left outline
 at radius 1 (`UnitProfile`), scaled by the radius, reoriented by a fixed
 axis map per corner, and shifted to the anchor.
 */
module CornerShape {
  import opened Geometry

  datatype Corner = TopLeft | TopRight | BottomLeft | BottomRight

  // Calibration ratios of the outline, as fractions of the radius. The
  // first number of each pair runs along the first edge, the "Perp" one
  // across it.
  const Ext: real := 1.29

  const B1Cp1: real := 1.08849323
  const B1Cp2: real := 0.86840689
  const B1End: real := 0.66993427
  const B1EndPerp: real := 0.06549600

  const LineAlong: real := 0.63149399
  const LinePerp: real := 0.07491100

  const B2Cp1: real := 0.37282392
  const B2Cp1Perp: real := 0.16906013
  const B2Cp2: real := 0.16906013
  const B2Cp2Perp: real := 0.37282392
  const B2End: real := 0.07491100
  const B2EndPerp: real := 0.63149399

  const B3Cp1Perp: real := 0.86840689
  const B3Cp2Perp: real := 1.08849323

  /** The calibration table, extension factor included. */
  const Ratios: seq<real> := [Ext, B1Cp1, B1Cp2, B1End, B1EndPerp, LineAlong, LinePerp,
                              B2Cp1, B2Cp1Perp, B2Cp2, B2Cp2Perp, B2End, B2EndPerp,
                              B3Cp1Perp, B3Cp2Perp]

  /** No ratio reaches past the extension factor, and none is negative. */
  lemma RatiosWithinExtension()
    ensures forall i :: 0 <= i < |Ratios| ==> 0.0 <= Ratios[i] <= Ext
  {
  }

  /** Shape of a drawn corner: move, line, cubic, line, cubic, cubic, close. */
  predicate IsCornerOutline(path: Path) {
    && |path| == 7
    && path[0].MoveTo? && path[1].LineTo? && path[2].CurveTo? && path[3].LineTo?
    && path[4].CurveTo? && path[5].CurveTo? && path[6].ClosePath?
  }

  /**
   `cornerPath(corner:x:y:radius:)`. A radius that is not positive gives
   the empty path. The left corners write the literal 0 for every x that
   is not an offset, so they ignore the `x` argument (`draw` passes 0).
   */
  function CornerPath(corner: Corner, x: real, y: real, r: real): (path: Path)
    ensures path == [] <==> r <= 0.0
    ensures r > 0.0 ==> IsCornerOutline(path)
  {
    if r <= 0.0 then [] else
    var e := r * Ext;
    match corner
    case TopLeft =>
      [ MoveTo(Point(0.0, y)),
        LineTo(Point(e, y)),
        CurveTo(Point(B1Cp1 * r, y), Point(B1Cp2 * r, y), Point(B1End * r, y + B1EndPerp * r)),
        LineTo(Point(LineAlong * r, y + LinePerp * r)),
        CurveTo(Point(B2Cp1 * r, y + B2Cp1Perp * r), Point(B2Cp2 * r, y + B2Cp2Perp * r),
                Point(B2End * r, y + B2EndPerp * r)),
        CurveTo(Point(0.0, y + B3Cp1Perp * r), Point(0.0, y + B3Cp2Perp * r), Point(0.0, y + e)),
        ClosePath ]
    case TopRight =>
      [ MoveTo(Point(x, y)),
        LineTo(Point(x - e, y)),
        CurveTo(Point(x - B1Cp1 * r, y), Point(x - B1Cp2 * r, y), Point(x - B1End * r, y + B1EndPerp * r)),
        LineTo(Point(x - LineAlong * r, y + LinePerp * r)),
        CurveTo(Point(x - B2Cp1 * r, y + B2Cp1Perp * r), Point(x - B2Cp2 * r, y + B2Cp2Perp * r),
                Point(x - B2End * r, y + B2EndPerp * r)),
        CurveTo(Point(x, y + B3Cp1Perp * r), Point(x, y + B3Cp2Perp * r), Point(x, y + e)),
        ClosePath ]
    case BottomLeft =>
      [ MoveTo(Point(0.0, y)),
        LineTo(Point(0.0, y - e)),
        CurveTo(Point(0.0, y - B1Cp1 * r), Point(0.0, y - B1Cp2 * r), Point(B1EndPerp * r, y - B1End * r)),
        LineTo(Point(LinePerp * r, y - LineAlong * r)),
        CurveTo(Point(B2Cp1Perp * r, y - B2Cp1 * r), Point(B2Cp2Perp * r, y - B2Cp2 * r),
                Point(B2EndPerp * r, y - B2End * r)),
        CurveTo(Point(B3Cp1Perp * r, y), Point(B3Cp2Perp * r, y), Point(e, y)),
        ClosePath ]
    case BottomRight =>
      [ MoveTo(Point(x, y)),
        LineTo(Point(x, y - e)),
        CurveTo(Point(x, y - B1Cp1 * r), Point(x, y - B1Cp2 * r), Point(x - B1EndPerp * r, y - B1End * r)),
        LineTo(Point(x - LinePerp * r, y - LineAlong * r)),
        CurveTo(Point(x - B2Cp1Perp * r, y - B2Cp1 * r), Point(x - B2Cp2Perp * r, y - B2Cp2 * r),
                Point(x - B2EndPerp * r, y - B2End * r)),
        CurveTo(Point(x - B3Cp1Perp * r, y), Point(x - B3Cp2Perp * r, y), Point(x - e, y)),
        ClosePath ]
  }

  /** Where a corner's outline starts: the left corners always sit on x = 0. */
  function Anchor(corner: Corner, x: real, y: real): Point {
    if corner == TopLeft || corner == BottomLeft then Point(0.0, y) else Point(x, y)
  }

  /**
   The left corners do not read `x`: their outline is the same for every
   `x`, anchored on x = 0. With `x` = 0, as `draw` passes it, every anchor
   is `(x, y)`.
   */
  lemma LeftCornersIgnoreX(corner: Corner, x1: real, x2: real, y: real, r: real)
    requires corner == TopLeft || corner == BottomLeft
    ensures CornerPath(corner, x1, y, r) == CornerPath(corner, x2, y, r)
    ensures Anchor(corner, 0.0, y) == Point(0.0, y)
  {
  }

  /**
   The axis map of each corner, taking (along, across) offsets of the
   top-left frame to that corner: top-right (a, b) to (-a, b), bottom-left
   (a, b) to (b, -a), bottom-right (a, b) to (-b, -a).
   */
  function CornerFrame(corner: Corner): Frame {
    match corner
    case TopLeft => Frame(false, false, false)
    case TopRight => Frame(false, true, false)
    case BottomLeft => Frame(true, false, true)
    case BottomRight => Frame(true, true, true)
  }

  /** Direction of the first edge, away from the anchor. */
  function Along(corner: Corner): Point { Orient(CornerFrame(corner), Point(1.0, 0.0)) }

  /** Direction of the edge the outline closes along, back to the anchor. */
  function Across(corner: Corner): Point { Orient(CornerFrame(corner), Point(0.0, 1.0)) }

  function Offset(p: Point, d: real, dir: Point): Point {
    Point(p.x + d * dir.x, p.y + d * dir.y)
  }

  /** The top-left outline at radius 1, anchored at the origin. */
  const UnitProfile: Path :=
    [ MoveTo(Point(0.0, 0.0)),
      LineTo(Point(Ext, 0.0)),
      CurveTo(Point(B1Cp1, 0.0), Point(B1Cp2, 0.0), Point(B1End, B1EndPerp)),
      LineTo(Point(LineAlong, LinePerp)),
      CurveTo(Point(B2Cp1, B2Cp1Perp), Point(B2Cp2, B2Cp2Perp), Point(B2End, B2EndPerp)),
      CurveTo(Point(0.0, B3Cp1Perp), Point(0.0, B3Cp2Perp), Point(0.0, Ext)),
      ClosePath ]

  /**
   The reference construction: the unit profile scaled by `r`, reoriented
   for `corner`, and shifted to `anchor`; empty when `r` is not positive.
   */
  function PlacedProfile(corner: Corner, anchor: Point, r: real): Path {
    if r <= 0.0 then []
    else MapPath(Shift(anchor.x, anchor.y), MapPath(Reorient(CornerFrame(corner)), MapPath(Scale(r), UnitProfile)))
  }

  /** The outline relative to its anchor. */
  function Offsets(corner: Corner, x: real, y: real, r: real): Path {
    var a := Anchor(corner, x, y);
    MapPath(Shift(-a.x, -a.y), CornerPath(corner, x, y, r))
  }

  /** One segment of the reference construction. */
  function Place(corner: Corner, anchor: Point, r: real, s: Segment): Segment {
    MapSegment(Shift(anchor.x, anchor.y), MapSegment(Reorient(CornerFrame(corner)), MapSegment(Scale(r), s)))
  }

  /** The placed profile, segment by segment. */
  lemma PlacedProfileSegments(corner: Corner, anchor: Point, r: real)
    requires r > 0.0
    ensures var u := UnitProfile;
            PlacedProfile(corner, anchor, r)
            == [Place(corner, anchor, r, u[0]), Place(corner, anchor, r, u[1]), Place(corner, anchor, r, u[2]),
                Place(corner, anchor, r, u[3]), Place(corner, anchor, r, u[4]), Place(corner, anchor, r, u[5]),
                Place(corner, anchor, r, u[6])]
  {
    var u := UnitProfile;
    var scale, turn, shift := Scale(r), Reorient(CornerFrame(corner)), Shift(anchor.x, anchor.y);
    assert u == [u[0], u[1], u[2], u[3], u[4], u[5], u[6]];
    MapPathOfSeven(scale, u[0], u[1], u[2], u[3], u[4], u[5], u[6]);
    var v := MapPath(scale, u);
    MapPathOfSeven(turn, v[0], v[1], v[2], v[3], v[4], v[5], v[6]);
    var w := MapPath(turn, v);
    MapPathOfSeven(shift, w[0], w[1], w[2], w[3], w[4], w[5], w[6]);
  }

  /** The top-left case of `cornerPath` is the placed profile anchored at `(0, y)`, segment for segment. */
  lemma TopLeftIsPlaced(x: real, y: real, r: real)
    requires r > 0.0
    ensures CornerPath(TopLeft, x, y, r) == PlacedProfile(TopLeft, Point(0.0, y), r)
  {
    var c, a, u, e := TopLeft, Point(0.0, y), UnitProfile, r * Ext;
    PlacedProfileSegments(c, a, r);
    assert Place(c, a, r, u[0]) == MoveTo(Point(0.0, y));
    assert Place(c, a, r, u[1]) == LineTo(Point(e, y));
    assert Place(c, a, r, u[2]) == CurveTo(Point(B1Cp1 * r, y), Point(B1Cp2 * r, y), Point(B1End * r, y + B1EndPerp * r));
    assert Place(c, a, r, u[3]) == LineTo(Point(LineAlong * r, y + LinePerp * r));
    assert Place(c, a, r, u[4]) == CurveTo(Point(B2Cp1 * r, y + B2Cp1Perp * r), Point(B2Cp2 * r, y + B2Cp2Perp * r),
                                           Point(B2End * r, y + B2EndPerp * r));
    assert Place(c, a, r, u[5]) == CurveTo(Point(0.0, y + B3Cp1Perp * r), Point(0.0, y + B3Cp2Perp * r), Point(0.0, y + e));
    assert Place(c, a, r, u[6]) == ClosePath;
  }

  /** The top-right case is the placed profile anchored at `(x, y)`. */
  lemma TopRightIsPlaced(x: real, y: real, r: real)
    requires r > 0.0
    ensures CornerPath(TopRight, x, y, r) == PlacedProfile(TopRight, Point(x, y), r)
  {
    var c, a, u, e := TopRight, Point(x, y), UnitProfile, r * Ext;
    PlacedProfileSegments(c, a, r);
    assert Place(c, a, r, u[0]) == MoveTo(Point(x, y));
    assert Place(c, a, r, u[1]) == LineTo(Point(x - e, y));
    assert Place(c, a, r, u[2]) == CurveTo(Point(x - B1Cp1 * r, y), Point(x - B1Cp2 * r, y), Point(x - B1End * r, y + B1EndPerp * r));
    assert Place(c, a, r, u[3]) == LineTo(Point(x - LineAlong * r, y + LinePerp * r));
    assert Place(c, a, r, u[4]) == CurveTo(Point(x - B2Cp1 * r, y + B2Cp1Perp * r), Point(x - B2Cp2 * r, y + B2Cp2Perp * r),
                                           Point(x - B2End * r, y + B2EndPerp * r));
    assert Place(c, a, r, u[5]) == CurveTo(Point(x, y + B3Cp1Perp * r), Point(x, y + B3Cp2Perp * r), Point(x, y + e));
    assert Place(c, a, r, u[6]) == ClosePath;
  }

  /** The bottom-left case is the placed profile anchored at `(0, y)`. */
  lemma BottomLeftIsPlaced(x: real, y: real, r: real)
    requires r > 0.0
    ensures CornerPath(BottomLeft, x, y, r) == PlacedProfile(BottomLeft, Point(0.0, y), r)
  {
    var c, a, u, e := BottomLeft, Point(0.0, y), UnitProfile, r * Ext;
    PlacedProfileSegments(c, a, r);
    assert Place(c, a, r, u[0]) == MoveTo(Point(0.0, y));
    assert Place(c, a, r, u[1]) == LineTo(Point(0.0, y - e));
    assert Place(c, a, r, u[2]) == CurveTo(Point(0.0, y - B1Cp1 * r), Point(0.0, y - B1Cp2 * r), Point(B1EndPerp * r, y - B1End * r));
    assert Place(c, a, r, u[3]) == LineTo(Point(LinePerp * r, y - LineAlong * r));
    assert Place(c, a, r, u[4]) == CurveTo(Point(B2Cp1Perp * r, y - B2Cp1 * r), Point(B2Cp2Perp * r, y - B2Cp2 * r),
                                           Point(B2EndPerp * r, y - B2End * r));
    assert Place(c, a, r, u[5]) == CurveTo(Point(B3Cp1Perp * r, y), Point(B3Cp2Perp * r, y), Point(e, y));
    assert Place(c, a, r, u[6]) == ClosePath;
  }

  /** The bottom-right case is the placed profile anchored at `(x, y)`. */
  lemma BottomRightIsPlaced(x: real, y: real, r: real)
    requires r > 0.0
    ensures CornerPath(BottomRight, x, y, r) == PlacedProfile(BottomRight, Point(x, y), r)
  {
    var c, a, u, e := BottomRight, Point(x, y), UnitProfile, r * Ext;
    PlacedProfileSegments(c, a, r);
    assert Place(c, a, r, u[0]) == MoveTo(Point(x, y));
    assert Place(c, a, r, u[1]) == LineTo(Point(x, y - e));
    assert Place(c, a, r, u[2]) == CurveTo(Point(x, y - B1Cp1 * r), Point(x, y - B1Cp2 * r), Point(x - B1EndPerp * r, y - B1End * r));
    assert Place(c, a, r, u[3]) == LineTo(Point(x - LinePerp * r, y - LineAlong * r));
    assert Place(c, a, r, u[4]) == CurveTo(Point(x - B2Cp1Perp * r, y - B2Cp1 * r), Point(x - B2Cp2Perp * r, y - B2Cp2 * r),
                                           Point(x - B2EndPerp * r, y - B2End * r));
    assert Place(c, a, r, u[5]) == CurveTo(Point(x - B3Cp1Perp * r, y), Point(x - B3Cp2Perp * r, y), Point(x - e, y));
    assert Place(c, a, r, u[6]) == ClosePath;
  }

  /** The four hand-written cases of `cornerPath` are one construction: the scaled, reoriented, shifted unit profile. */
  lemma CornerPathIsPlacedProfile(corner: Corner, x: real, y: real, r: real)
    ensures CornerPath(corner, x, y, r) == PlacedProfile(corner, Anchor(corner, x, y), r)
  {
    if r > 0.0 {
      match corner
      case TopLeft => TopLeftIsPlaced(x, y, r);
      case TopRight => TopRightIsPlaced(x, y, r);
      case BottomLeft => BottomLeftIsPlaced(x, y, r);
      case BottomRight => BottomRightIsPlaced(x, y, r);
    }
  }

  /** A positive radius gives an outline that starts at the anchor, runs `r * 1.29` along one axis, ends `r * 1.29` along the perpendicular one, and closes. */
  lemma OutlineLeavesAndReturnsToAnchor(corner: Corner, x: real, y: real, r: real)
    requires r > 0.0
    ensures var path := CornerPath(corner, x, y, r);
            var a := Anchor(corner, x, y);
            && path[0] == MoveTo(a)
            && path[1] == LineTo(Offset(a, r * Ext, Along(corner)))
            && path[5].to == Offset(a, r * Ext, Across(corner))
            && path[6] == ClosePath
            && Along(corner).x * Across(corner).x + Along(corner).y * Across(corner).y == 0.0
  {
  }

  /** The square of side `e` that a corner's outline covers, on the inner side of its anchor. */
  function CornerBox(corner: Corner, a: Point, e: real): Rect {
    match corner
    case TopLeft => Rect(a.x, a.y, e, e)
    case TopRight => Rect(a.x - e, a.y, e, e)
    case BottomLeft => Rect(a.x, a.y - e, e, e)
    case BottomRight => Rect(a.x - e, a.y - e, e, e)
  }

  /** The unit profile lies in the square `[0, 1.29] x [0, 1.29]`. */
  lemma UnitProfileWithinUnitBox()
    ensures Within(UnitProfile, Rect(0.0, 0.0, Ext, Ext))
  {
    var u, box := UnitProfile, Rect(0.0, 0.0, Ext, Ext);
    assert u == [u[0], u[1], u[2], u[3], u[4], u[5], u[6]];
    assert SegmentWithin(u[0], box);
    assert SegmentWithin(u[1], box);
    assert SegmentWithin(u[2], box);
    assert SegmentWithin(u[3], box);
    assert SegmentWithin(u[4], box);
    assert SegmentWithin(u[5], box);
    assert SegmentWithin(u[6], box);
    WithinSeven(u[0], u[1], u[2], u[3], u[4], u[5], u[6], box);
  }

  /** Scaling by `r` takes the square of side `e` at the origin into the square of side `r * e`. */
  lemma ScaledPointInBox(r: real, e: real, q: Point)
    requires r > 0.0
    requires Rect(0.0, 0.0, e, e).Contains(q)
    ensures Rect(0.0, 0.0, r * e, r * e).Contains(Apply(Scale(r), q))
  {
    ScaledBetween(r, q.x, e);
    ScaledBetween(r, q.y, e);
    InSquare(Apply(Scale(r), q), r * e);
  }

  /** Multiplying by a positive `r` keeps `0 <= v <= e` in order. */
  lemma ScaledBetween(r: real, v: real, e: real)
    requires r > 0.0 && 0.0 <= v <= e
    ensures 0.0 <= r * v <= r * e
  {
    assert r * e - r * v == r * (e - v);
  }

  /** The square of side `e` at the origin, spelled out coordinate by coordinate. */
  lemma InSquare(p: Point, e: real)
    requires 0.0 <= p.x <= e && 0.0 <= p.y <= e
    ensures Rect(0.0, 0.0, e, e).Contains(p)
  {
  }

  /** A point of the square `[0, e] x [0, e]`, reoriented for `corner` and shifted to `a`, lies in that corner's box. */
  lemma OrientedPointInBox(corner: Corner, a: Point, e: real, s: Point)
    requires 0.0 <= s.x <= e && 0.0 <= s.y <= e
    ensures CornerBox(corner, a, e).Contains(Apply(Shift(a.x, a.y), Apply(Reorient(CornerFrame(corner)), s)))
  {
  }

  /** The scaled unit profile lies in the square `[0, r * 1.29] x [0, r * 1.29]`. */
  lemma ScaledProfileWithinBox(r: real)
    requires r > 0.0
    ensures Within(MapPath(Scale(r), UnitProfile), Rect(0.0, 0.0, r * Ext, r * Ext))
  {
    var unit, box := Rect(0.0, 0.0, Ext, Ext), Rect(0.0, 0.0, r * Ext, r * Ext);
    UnitProfileWithinUnitBox();
    forall q | unit.Contains(q) ensures box.Contains(Apply(Scale(r), q)) {
      ScaledPointInBox(r, Ext, q);
    }
    MapPathWithin(Scale(r), UnitProfile, unit, box);
  }

  /** A path in the square `[0, e] x [0, e]`, reoriented for `corner` and shifted to `a`, lies in that corner's box. */
  lemma OrientedWithinBox(corner: Corner, a: Point, e: real, path: Path)
    requires Within(path, Rect(0.0, 0.0, e, e))
    ensures Within(MapPath(Shift(a.x, a.y), MapPath(Reorient(CornerFrame(corner)), path)), CornerBox(corner, a, e))
  {
    var turned := MapPath(Reorient(CornerFrame(corner)), path);
    PointsOfMapPath(Reorient(CornerFrame(corner)), path);
    PointsOfMapPath(Shift(a.x, a.y), turned);
    var src := Points(path);
    var pts := Points(MapPath(Shift(a.x, a.y), turned));
    forall q | q in pts ensures CornerBox(corner, a, e).Contains(q) {
      var i :| 0 <= i < |pts| && pts[i] == q;
      assert src[i] in src;
      OrientedPointInBox(corner, a, e, src[i]);
    }
  }

  /** The placed profile lies in the `r * 1.29` square on the inner side of its anchor. */
  lemma PlacedProfileWithinBox(corner: Corner, a: Point, r: real)
    requires r > 0.0
    ensures Within(PlacedProfile(corner, a, r), CornerBox(corner, a, r * Ext))
  {
    ScaledProfileWithinBox(r);
    OrientedWithinBox(corner, a, r * Ext, MapPath(Scale(r), UnitProfile));
  }

  /** Every vertex and control point of a corner lies in the `r * 1.29` square on the inner side of its anchor. */
  lemma CornerPathWithinBox(corner: Corner, x: real, y: real, r: real)
    ensures Within(CornerPath(corner, x, y, r), CornerBox(corner, Anchor(corner, x, y), r * Ext))
  {
    if r > 0.0 {
      PlacedProfileWithinBox(corner, Anchor(corner, x, y), r);
      CornerPathIsPlacedProfile(corner, x, y, r);
    }
  }

  /** Relative to its anchor, each corner is the top-left outline under that corner's axis map. */
  lemma CornerIsReorientedTopLeft(corner: Corner, x: real, y: real, r: real)
    ensures Offsets(corner, x, y, r) == MapPath(Reorient(CornerFrame(corner)), Offsets(TopLeft, x, y, r))
  {
    if r > 0.0 {
      OffsetsAreReorientedScaledProfile(corner, x, y, r);
      OffsetsAreReorientedScaledProfile(TopLeft, x, y, r);
      MapPathIdentity(Reorient(CornerFrame(TopLeft)), MapPath(Scale(r), UnitProfile));
    }
  }

  /** Relative to the anchor, the outline is the scaled unit profile under the corner's axis map. */
  lemma OffsetsAreReorientedScaledProfile(corner: Corner, x: real, y: real, r: real)
    requires r > 0.0
    ensures Offsets(corner, x, y, r) == MapPath(Reorient(CornerFrame(corner)), MapPath(Scale(r), UnitProfile))
  {
    var a := Anchor(corner, x, y);
    var turned := MapPath(Reorient(CornerFrame(corner)), MapPath(Scale(r), UnitProfile));
    calc {
      Offsets(corner, x, y, r);
      MapPath(Shift(-a.x, -a.y), CornerPath(corner, x, y, r));
      { CornerPathIsPlacedProfile(corner, x, y, r); }
      MapPath(Shift(-a.x, -a.y), MapPath(Shift(a.x, a.y), turned));
      { MapPathInverse(Shift(-a.x, -a.y), Shift(a.x, a.y), turned); }
      turned;
    }
  }

  /** Every offset from the anchor is the radius-1 offset multiplied by `r`. */
  lemma CornerPathScalesLinearly(corner: Corner, x: real, y: real, r: real)
    requires r > 0.0
    ensures Offsets(corner, x, y, r) == MapPath(Scale(r), Offsets(corner, x, y, 1.0))
  {
    var turn := Reorient(CornerFrame(corner));
    calc {
      Offsets(corner, x, y, r);
      { OffsetsAreReorientedScaledProfile(corner, x, y, r); }
      MapPath(turn, MapPath(Scale(r), UnitProfile));
      { ReorientCommutesWithScale(CornerFrame(corner), r, UnitProfile); }
      MapPath(Scale(r), MapPath(turn, UnitProfile));
      { MapPathIdentity(Scale(1.0), UnitProfile); }
      MapPath(Scale(r), MapPath(turn, MapPath(Scale(1.0), UnitProfile)));
      { OffsetsAreReorientedScaledProfile(corner, x, y, 1.0); }
      MapPath(Scale(r), Offsets(corner, x, y, 1.0));
    }
  }

  /** All four corners at one radius are congruent: their vertex lists pair up with equal distances. */
  lemma CornersCongruent(c1: Corner, x1: real, y1: real, c2: Corner, x2: real, y2: real, r: real)
    ensures Congruent(Points(CornerPath(c1, x1, y1, r)), Points(CornerPath(c2, x2, y2, r)))
  {
    if r > 0.0 {
      var scaled := MapPath(Scale(r), UnitProfile);
      PlacedIsCongruentToScaled(c1, Anchor(c1, x1, y1), r);
      PlacedIsCongruentToScaled(c2, Anchor(c2, x2, y2), r);
      CornerPathIsPlacedProfile(c1, x1, y1, r);
      CornerPathIsPlacedProfile(c2, x2, y2, r);
      CongruentSymmetric(Points(CornerPath(c2, x2, y2, r)), Points(scaled));
      CongruentTransitive(Points(CornerPath(c1, x1, y1, r)), Points(scaled), Points(CornerPath(c2, x2, y2, r)));
    }
  }

  lemma PlacedIsCongruentToScaled(corner: Corner, a: Point, r: real)
    requires r > 0.0
    ensures Congruent(Points(PlacedProfile(corner, a, r)), Points(MapPath(Scale(r), UnitProfile)))
  {
    var scaled := MapPath(Scale(r), UnitProfile);
    var turned := MapPath(Reorient(CornerFrame(corner)), scaled);
    PointsOfMapPath(Reorient(CornerFrame(corner)), scaled);
    PointsOfMapPath(Shift(a.x, a.y), turned);
    RigidMapIsCongruence(Reorient(CornerFrame(corner)), Points(scaled));
    RigidMapIsCongruence(Shift(a.x, a.y), Points(turned));
    CongruentTransitive(Points(PlacedProfile(corner, a, r)), Points(turned), Points(scaled));
  }

  /** Reflection across the diagonal of the top-left corner. */
  const Diagonal: Frame := Frame(true, false, false)

  /**
   The middle cubic is its own mirror image across the corner's diagonal
   (run backwards), and the third cubic mirrors the first cubic's control
   points and the first edge's end. The first cubic, however, stops short
   at a point of its own and reaches the mirror of the middle cubic's end
   only through the short line, so the outline as a whole is not mirror
   symmetric.
   */
  lemma ProfileDiagonalSymmetries()
    ensures var u := UnitProfile;
            && Orient(Diagonal, u[4].to) == u[3].p
            && Orient(Diagonal, u[4].c2) == u[4].c1
            && Orient(Diagonal, u[4].c1) == u[4].c2
            && Orient(Diagonal, u[5].c2) == u[2].c1
            && Orient(Diagonal, u[5].c1) == u[2].c2
            && Orient(Diagonal, u[5].to) == u[1].p
            && u[2].to != u[3].p
  {
  }

  /** Reflection across the horizontal axis: (a, b) to (a, -b). */
  const Mirror: Frame := Frame(false, false, true)

  /**
   The bottom-left axis map (a, b) to (b, -a) is a quarter turn, not a
   reflection. Because of the first cubic's own end point, the radius-1
   bottom-left outline is therefore not the top-left one mirrored across the
   horizontal axis: the mirror has a point the bottom-left outline lacks.
   */
  lemma BottomLeftIsNotMirroredTopLeft()
    ensures Point(B1End, -B1EndPerp) in Points(MapPath(Reorient(Mirror), UnitProfile))
    ensures Point(B1End, -B1EndPerp) !in Points(MapPath(Reorient(CornerFrame(BottomLeft)), UnitProfile))
  {
    var q := Point(B1End, -B1EndPerp);
    var mirrored := MapPath(Reorient(Mirror), UnitProfile);
    assert q in SegmentPoints(mirrored[2]);
    SegmentPointInPath(q, mirrored, 2);
    TurnedProfileLacksMirrorPoint();
  }

  /** Every x coordinate of the turned profile is a "Perp" ratio, 0 or 1.29, and none of them is `B1End`. */
  lemma TurnedProfileLacksMirrorPoint()
    ensures Point(B1End, -B1EndPerp) !in Points(MapPath(Reorient(CornerFrame(BottomLeft)), UnitProfile))
  {
    var q := Point(B1End, -B1EndPerp);
    var turned := MapPath(Reorient(CornerFrame(BottomLeft)), UnitProfile);
    if q in Points(turned) {
      PointInSomeSegment(q, turned);
      assert false;
    }
  }
}
