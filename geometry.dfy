/** The renderer's fixed configuration and the box arithmetic it does with
    measured bounding boxes and with the layout's output. Every measured box
    (`getBBox`) and every layout result is an input here; JavaScript numbers
    are modelled as reals. */
module Geometry {

  /** The renderer's `conf` object. */
  const Padding: real := 5.0
  const DividerMargin: real := 10.0
  const TextHeight: real := 10.0

  /** Margin added to the laid-out graph's extent on each axis of the viewBox. */
  const ViewMargin: real := 20.0

  /** A rectangle, or a bounding box as `getBBox` reports it. */
  datatype Box = Box(x: real, y: real, width: real, height: real)

  datatype Point2 = Point2(x: real, y: real)

  /** A node's size as stored in the identity cache and handed to the layout. */
  datatype Size = Size(width: real, height: real)

  function Right(b: Box): real { b.x + b.width }

  function Bottom(b: Box): real { b.y + b.height }

  function Centre(b: Box): Point2 { Point2(b.x + b.width / 2.0, b.y + b.height / 2.0) }

  predicate Contains(outer: Box, inner: Box) {
    && outer.x <= inner.x && Right(inner) <= Right(outer)
    && outer.y <= inner.y && Bottom(inner) <= Bottom(outer)
  }

  /** `outer` surrounds `inner` with a margin of exactly `m` on each of its four sides. */
  predicate Surrounds(outer: Box, inner: Box, m: real) {
    && inner.x - outer.x == m && Right(outer) - Right(inner) == m
    && inner.y - outer.y == m && Bottom(outer) - Bottom(inner) == m
  }

  /** The box grown by `m` on every side: the reference definition the
      renderer's padded boxes are compared against. */
  function Grow(b: Box, m: real): (r: Box)
    ensures Surrounds(r, b, m)
    ensures m >= 0.0 ==> Contains(r, b)
  {
    Box(b.x - m, b.y - m, b.width + 2.0 * m, b.height + 2.0 * m)
  }

  /** The inverse of `Grow`. */
  function Shrink(b: Box, m: real): (r: Box)
    ensures Grow(r, m) == b
  {
    Box(b.x + m, b.y + m, b.width - 2.0 * m, b.height - 2.0 * m)
  }

  /** Size stored for a node: its group's measured box plus `2 * padding`
      on each axis, i.e. the size of that box grown by `padding`. */
  function NodeSize(groupBox: Box): (s: Size)
    ensures s.width == Grow(groupBox, Padding).width
    ensures s.height == Grow(groupBox, Padding).height
    ensures s.width - groupBox.width == s.height - groupBox.height == 2.0 * Padding
  {
    Size(groupBox.width + 2.0 * Padding, groupBox.height + 2.0 * Padding)
  }

  /** Backing rectangle of an edge label: its `x`, `y`, `width` and `height`
      attributes computed from the label's measured bounds. */
  function EdgeLabelBox(bounds: Box): (r: Box)
    ensures r == Grow(bounds, Padding / 2.0)
    ensures Surrounds(r, bounds, Padding / 2.0) && Contains(r, bounds)
    ensures Shrink(r, Padding / 2.0) == bounds
  {
    Box(bounds.x - Padding / 2.0, bounds.y - Padding / 2.0, bounds.width + Padding, bounds.height + Padding)
  }

  /** Offset of the `translate(...)` a node receives: the top-left corner of a
      `width` by `height` box whose centre the layout placed at (x, y). */
  function NodeTranslate(x: real, y: real, width: real, height: real): (t: Point2)
    ensures Centre(Box(t.x, t.y, width, height)) == Point2(x, y)
  {
    Point2(x - width / 2.0, y - height / 2.0)
  }

  /** The translate offset is the only one that centres the node on its layout position. */
  lemma NodeTranslateUnique(x: real, y: real, width: real, height: real, t: Point2)
    requires Centre(Box(t.x, t.y, width, height)) == Point2(x, y)
    ensures t == NodeTranslate(x, y, width, height)
  {
  }

  /** The drawing's `viewBox`: origin at 0, the graph's extent plus the margin. */
  function ViewBox(graphWidth: real, graphHeight: real): (v: Box)
    ensures v.x == 0.0 && v.y == 0.0
    ensures v.width - graphWidth == v.height - graphHeight == ViewMargin
  {
    Box(0.0, 0.0, graphWidth + ViewMargin, graphHeight + ViewMargin)
  }

  /** Whatever lies inside the graph's extent lies inside the viewBox, with
      at least the margin to spare on the right and at the bottom. */
  lemma ViewBoxCovers(graphWidth: real, graphHeight: real, b: Box)
    requires Contains(Box(0.0, 0.0, graphWidth, graphHeight), b)
    ensures Contains(ViewBox(graphWidth, graphHeight), b)
    ensures Right(ViewBox(graphWidth, graphHeight)) - Right(b) >= ViewMargin
    ensures Bottom(ViewBox(graphWidth, graphHeight)) - Bottom(b) >= ViewMargin
  {
  }
}
