/**
 * What a renderer does with a transform list: the reference meaning of the
 * operations the wrappers append. A list applies its last entry first (it is
 * the one closest to the content), as SVG composes `transform` attributes.
 * Coordinates are SVG user units with y growing downwards, so rotate(90)
 * turns clockwise on screen.
 */
module Geometry {
  import opened Wrappers
  import opened Transform

  datatype Point = Point(x: real, y: real)

  /** The rectangle [left, right] x [top, bottom]. */
  datatype Box = Box(left: real, top: real, right: real, bottom: real)

  predicate Inside(p: Point, b: Box) {
    b.left <= p.x <= b.right && b.top <= p.y <= b.bottom
  }

  predicate Contains(outer: Box, inner: Box) {
    && outer.left <= inner.left && inner.right <= outer.right
    && outer.top <= inner.top && inner.bottom <= outer.bottom
  }

  /**
   * Where one entry sends a point. Rotations are followed for 0 and 90
   * degrees only (the only angles the mapper uses); any other angle, and
   * scaling, which the mapper never puts on a placed group, give None.
   */
  function ApplyPoint(op: Op, p: Point): Option<Point> {
    match op
    case Translate(tx, ty) => Some(Point(p.x + tx, p.y + ty))
    case Rotate(angle, cx, cy) =>
      if angle == 0.0 then Some(p)
      else if angle == 90.0 then Some(Point(cx + cy - p.y, cy - cx + p.x))
      else None
    case Scale(_) => None
    case ScaleXY(_, _) => None
  }

  /** The rectangle one entry turns a rectangle into. */
  function ApplyBox(op: Op, b: Box): Option<Box> {
    match op
    case Translate(tx, ty) => Some(Box(b.left + tx, b.top + ty, b.right + tx, b.bottom + ty))
    case Rotate(angle, cx, cy) =>
      if angle == 0.0 then Some(b)
      else if angle == 90.0 then Some(Box(cx + cy - b.bottom, cy - cx + b.left, cx + cy - b.top, cy - cx + b.right))
      else None
    case Scale(_) => None
    case ScaleXY(_, _) => None
  }

  /** Where a whole transform list sends a point: last entry first. */
  function MapPoint(ops: seq<Op>, p: Point): Option<Point>
    decreases |ops|
  {
    if ops == [] then Some(p)
    else
      match ApplyPoint(ops[|ops| - 1], p)
      case None => None
      case Some(q) => MapPoint(ops[..|ops| - 1], q)
  }

  /** The rectangle a whole transform list turns a rectangle into: last entry first. */
  function MapBox(ops: seq<Op>, b: Box): Option<Box>
    decreases |ops|
  {
    if ops == [] then Some(b)
    else
      match ApplyBox(ops[|ops| - 1], b)
      case None => None
      case Some(c) => MapBox(ops[..|ops| - 1], c)
  }

  /** ApplyBox is sound: every point of a rectangle lands in the rectangle's image. */
  lemma ApplyBoxSound(op: Op, b: Box, p: Point)
    requires Inside(p, b) && ApplyBox(op, b).Some?
    ensures ApplyPoint(op, p).Some? && Inside(ApplyPoint(op, p).value, ApplyBox(op, b).value)
  {
  }

  /** MapBox is sound: every point of a rectangle lands in what MapBox says the rectangle becomes. */
  lemma {:induction false} MapBoxSound(ops: seq<Op>, b: Box, p: Point)
    requires Inside(p, b) && MapBox(ops, b).Some?
    ensures MapPoint(ops, p).Some? && Inside(MapPoint(ops, p).value, MapBox(ops, b).value)
    decreases |ops|
  {
    if ops != [] {
      var last := ops[|ops| - 1];
      ApplyBoxSound(last, b, p);
      MapBoxSound(ops[..|ops| - 1], ApplyBox(last, b).value, ApplyPoint(last, p).value);
    }
  }

  /** A list split in two: the inner part acts first, the outer part on its result. */
  lemma {:induction false} MapBoxAppend(outer: seq<Op>, inner: seq<Op>, b: Box)
    requires MapBox(inner, b).Some?
    ensures MapBox(outer + inner, b) == MapBox(outer, MapBox(inner, b).value)
    decreases |inner|
  {
    if inner == [] {
      assert outer + inner == outer;
    } else {
      var all := outer + inner;
      var last := inner[|inner| - 1];
      assert all[..|all| - 1] == outer + inner[..|inner| - 1];
      assert all[|all| - 1] == last;
      MapBoxAppend(outer, inner[..|inner| - 1], ApplyBox(last, b).value);
    }
  }

  /**
   * ApplyBox is tight: every point of the image rectangle is the image of a
   * point of the rectangle. (An entry ApplyBox follows is a translation or a
   * turn by 0 or 90 degrees, and each of those is onto.)
   */
  lemma ApplyBoxExact(op: Op, b: Box, q: Point)
    requires ApplyBox(op, b).Some? && Inside(q, ApplyBox(op, b).value)
    ensures exists p :: Inside(p, b) && ApplyPoint(op, p) == Some(q)
  {
    match op
    case Translate(tx, ty) =>
      var p := Point(q.x - tx, q.y - ty);
      assert Inside(p, b) && ApplyPoint(op, p) == Some(q);
    case Rotate(angle, cx, cy) =>
      if angle == 0.0 {
        assert Inside(q, b) && ApplyPoint(op, q) == Some(q);
      } else {
        var p := Point(q.y - cy + cx, cx + cy - q.x);
        assert Inside(p, b) && ApplyPoint(op, p) == Some(q);
      }
  }

  /**
   * MapBox is tight: every point of what MapBox says a rectangle becomes is
   * where some point of the rectangle lands. With MapBoxSound, MapBox's
   * rectangle is exactly the image of the rectangle.
   */
  lemma {:induction false} MapBoxExact(ops: seq<Op>, b: Box, q: Point)
    requires MapBox(ops, b).Some? && Inside(q, MapBox(ops, b).value)
    ensures exists p :: Inside(p, b) && MapPoint(ops, p) == Some(q)
    decreases |ops|
  {
    if ops == [] {
      assert Inside(q, b) && MapPoint(ops, q) == Some(q);
    } else {
      var last := ops[|ops| - 1];
      var init := ops[..|ops| - 1];
      var c := ApplyBox(last, b).value;
      MapBoxExact(init, c, q);
      var mid :| Inside(mid, c) && MapPoint(init, mid) == Some(q);
      ApplyBoxExact(last, b, mid);
      var p :| Inside(p, b) && ApplyPoint(last, p) == Some(mid);
      assert MapPoint(ops, p) == Some(q);
    }
  }
}
