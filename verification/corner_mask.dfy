/**
 `CornerView`: the overlay's content view. `draw` fills a full-width
 menu-bar strip and the four corner outlines, all in one opaque colour,
 over an otherwise transparent view. Painting is modelled as the list of
 shapes the view fills; the fill colour and the rasteriser are left out.
 */
module CornerMask {
  import opened Geometry
  import opened CornerShape

  /** The drawing state of a `CornerView`; `needsDisplay` is AppKit's dirty flag. */
  datatype CornerView = CornerView(cornerSize: real, menuBarHeight: real, needsDisplay: bool)

  /** A fresh view: corner size 26 and menu-bar height 24. */
  const NewView: CornerView := CornerView(26.0, 24.0, false)

  datatype Shape = FillRect(rect: Rect) | FillPath(path: Path)

  /** The corners in the order `draw` adds them. */
  const DrawOrder: seq<Corner> := [TopLeft, TopRight, BottomLeft, BottomRight]

  /**
   Where `draw` anchors corner `i` of a `w` by `h` view: the top corners
   on the bottom edge of the strip, the bottom corners on the bottom edge.
   */
  function DrawAnchor(i: nat, w: real, h: real, m: real): Point
    requires i < 4
  {
    [Point(0.0, m), Point(w, m), Point(0.0, h), Point(w, h)][i]
  }

  /**
   `draw` for a view of bounds `w` by `h`: the strip `(0, 0, w, m)`, then the
   four corners of radius `cornerSize`, each being the reference construction
   at its anchor.
   */
  function Draw(view: CornerView, w: real, h: real): (shapes: seq<Shape>)
    ensures |shapes| == 5
    ensures shapes[0] == FillRect(Rect(0.0, 0.0, w, view.menuBarHeight))
    ensures forall i :: 0 <= i < 4 ==>
              shapes[i + 1] == FillPath(PlacedProfile(DrawOrder[i], DrawAnchor(i, w, h, view.menuBarHeight), view.cornerSize))
    ensures view.cornerSize <= 0.0 ==> forall i :: 1 <= i < 5 ==> shapes[i] == FillPath([])
  {
    var r := view.cornerSize;
    var menuY := view.menuBarHeight;
    DrawnCornersArePlaced(w, h, menuY, r);
    [ FillRect(Rect(0.0, 0.0, w, view.menuBarHeight)),
      FillPath(CornerPath(TopLeft, 0.0, menuY, r)),
      FillPath(CornerPath(TopRight, w, menuY, r)),
      FillPath(CornerPath(BottomLeft, 0.0, h, r)),
      FillPath(CornerPath(BottomRight, w, h, r)) ]
  }

  lemma DrawnCornersArePlaced(w: real, h: real, m: real, r: real)
    ensures forall i :: 0 <= i < 4 ==>
              CornerPath(DrawOrder[i], DrawAnchor(i, w, h, m).x, DrawAnchor(i, w, h, m).y, r)
              == PlacedProfile(DrawOrder[i], DrawAnchor(i, w, h, m), r)
  {
    forall i | 0 <= i < 4
      ensures CornerPath(DrawOrder[i], DrawAnchor(i, w, h, m).x, DrawAnchor(i, w, h, m).y, r)
              == PlacedProfile(DrawOrder[i], DrawAnchor(i, w, h, m), r)
    {
      var a := DrawAnchor(i, w, h, m);
      CornerPathIsPlacedProfile(DrawOrder[i], a.x, a.y, r);
      assert Anchor(DrawOrder[i], a.x, a.y) == a;
    }
  }

  /** The four drawn corners are congruent to one another. */
  lemma DrawnCornersCongruent(view: CornerView, w: real, h: real, i: nat, j: nat)
    requires i < 4 && j < 4
    ensures Congruent(Points(Draw(view, w, h)[i + 1].path), Points(Draw(view, w, h)[j + 1].path))
  {
    var m, r := view.menuBarHeight, view.cornerSize;
    var ai, aj := DrawAnchor(i, w, h, m), DrawAnchor(j, w, h, m);
    CornerPathIsPlacedProfile(DrawOrder[i], ai.x, ai.y, r);
    CornerPathIsPlacedProfile(DrawOrder[j], aj.x, aj.y, r);
    assert Anchor(DrawOrder[i], ai.x, ai.y) == ai;
    assert Anchor(DrawOrder[j], aj.x, aj.y) == aj;
    CornersCongruent(DrawOrder[i], ai.x, ai.y, DrawOrder[j], aj.x, aj.y, r);
  }

  /** The square a drawn corner covers: side `cornerSize * 1.29`, on the inner side of its anchor. */
  function DrawnBox(view: CornerView, w: real, h: real, i: nat): Rect
    requires i < 4
  {
    CornerBox(DrawOrder[i], DrawAnchor(i, w, h, view.menuBarHeight), view.cornerSize * Ext)
  }

  /** Every vertex and control point of drawn corner `i` lies in its box. */
  lemma DrawnCornerWithinBox(view: CornerView, w: real, h: real, i: nat)
    requires i < 4
    ensures Within(Draw(view, w, h)[i + 1].path, DrawnBox(view, w, h, i))
  {
    var r := view.cornerSize;
    var a, c := DrawAnchor(i, w, h, view.menuBarHeight), DrawOrder[i];
    assert Draw(view, w, h)[i + 1].path == PlacedProfile(c, a, r);
    if r > 0.0 {
      PlacedProfileWithinBox(c, a, r);
    }
  }

  /**
   When the corner extent fits across the width and below the strip, every
   drawn corner stays inside the part of the view under the strip.
   */
  lemma DrawnCornersInsideView(view: CornerView, w: real, h: real, i: nat)
    requires i < 4
    requires view.cornerSize * Ext <= w
    requires view.menuBarHeight + view.cornerSize * Ext <= h
    ensures Within(Draw(view, w, h)[i + 1].path, Rect(0.0, view.menuBarHeight, w, h - view.menuBarHeight))
  {
    var m, r := view.menuBarHeight, view.cornerSize;
    DrawnCornerWithinBox(view, w, h, i);
    if r > 0.0 {
      ScaledBetween(r, Ext, Ext);
      CornerBoxInsideView(i, w, h, m, r * Ext);
      WithinLarger(Draw(view, w, h)[i + 1].path, DrawnBox(view, w, h, i), Rect(0.0, m, w, h - m));
    } else {
      assert Draw(view, w, h)[i + 1].path == [];
    }
  }

  /** The box of corner `i`, of side `e`, lies under the strip when `e` fits both ways. */
  lemma CornerBoxInsideView(i: nat, w: real, h: real, m: real, e: real)
    requires i < 4
    requires 0.0 <= e && e <= w && m + e <= h
    ensures forall q :: CornerBox(DrawOrder[i], DrawAnchor(i, w, h, m), e).Contains(q)
                        ==> Rect(0.0, m, w, h - m).Contains(q)
  {
  }

  /**
   When twice the corner extent fits across the width and below the strip,
   the boxes of two different drawn corners share no interior point, so
   (with `DrawnCornerWithinBox`) the four corners do not overlap.
   */
  lemma DrawnCornersApart(view: CornerView, w: real, h: real, i: nat, j: nat)
    requires i < 4 && j < 4 && i != j
    requires 2.0 * (view.cornerSize * Ext) <= w
    requires view.menuBarHeight + 2.0 * (view.cornerSize * Ext) <= h
    ensures forall q :: !(DrawnBox(view, w, h, i).Interior(q) && DrawnBox(view, w, h, j).Interior(q))
  {
    var m, e := view.menuBarHeight, view.cornerSize * Ext;
    assert DrawnBox(view, w, h, i) == CornerBox(DrawOrder[i], DrawAnchor(i, w, h, m), e);
    assert DrawnBox(view, w, h, j) == CornerBox(DrawOrder[j], DrawAnchor(j, w, h, m), e);
    CornerBoxesApart(i, j, w, h, m, e);
  }

  /** Boxes of side `e` at two different anchors share no interior point when `2 * e` fits both ways. */
  lemma CornerBoxesApart(i: nat, j: nat, w: real, h: real, m: real, e: real)
    requires i < 4 && j < 4 && i != j
    requires 2.0 * e <= w && m + 2.0 * e <= h
    ensures forall q :: !(CornerBox(DrawOrder[i], DrawAnchor(i, w, h, m), e).Interior(q)
                          && CornerBox(DrawOrder[j], DrawAnchor(j, w, h, m), e).Interior(q))
  {
  }
}
