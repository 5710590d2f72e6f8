/** The plane the example app draws in: paper.js points and rectangles,
    over the reals. A rectangle is kept by its four edges, so each edge
    setter changes exactly one field and the width is `right - left`. */
module Geometry {

  datatype Point = Point(x: real, y: real)

  /** `a.add(b)`. */
  function Add(a: Point, b: Point): Point {
    Point(a.x + b.x, a.y + b.y)
  }

  /** `a.subtract(b)`. */
  function Sub(a: Point, b: Point): (d: Point)
    ensures Add(b, d) == a
  {
    Point(a.x - b.x, a.y - b.y)
  }

  datatype Rect = Rect(left: real, top: real, right: real, bottom: real)
  {
    function Width(): real { right - left }
    function Height(): real { bottom - top }
    function Center(): Point { Point((left + right) / 2.0, (top + bottom) / 2.0) }
  }

  /** The rectangle after its `position` (its centre) moved by `d`. */
  function Translate(r: Rect, d: Point): (t: Rect)
    ensures t.Width() == r.Width() && t.Height() == r.Height()
    ensures t.Center() == Add(r.Center(), d)
  {
    Rect(r.left + d.x, r.top + d.y, r.right + d.x, r.bottom + d.y)
  }

  lemma TranslateTwice(r: Rect, d1: Point, d2: Point)
    ensures Translate(Translate(r, d1), d2) == Translate(r, Add(d1, d2))
  {
  }

  function Min(a: real, b: real): real { if a <= b then a else b }
  function Max(a: real, b: real): real { if a <= b then b else a }

  /** `new Rectangle(from, to)`: the rectangle with those opposite corners. */
  function Between(from: Point, to: Point): (r: Rect)
    ensures r.Width() >= 0.0 && r.Height() >= 0.0
    ensures r.Width() == Max(from.x - to.x, to.x - from.x)
    ensures r.Height() == Max(from.y - to.y, to.y - from.y)
  {
    Rect(Min(from.x, to.x), Min(from.y, to.y), Max(from.x, to.x), Max(from.y, to.y))
  }

  /** `a.getDistance(b) < d` for a non-negative bound, compared without
      the square root. */
  predicate CloserThan(a: Point, b: Point, d: real)
    requires d >= 0.0
  {
    var dx := b.x - a.x;
    var dy := b.y - a.y;
    dx * dx + dy * dy < d * d
  }

  /** Moving the end point along one axis by at least `d` leaves the
      points at least `d` apart. */
  lemma FarAlongAxis(a: Point, b: Point, d: real)
    requires d >= 0.0 && (b.x - a.x >= d || a.x - b.x >= d)
    ensures !CloserThan(a, b, d)
  {
    var dx := b.x - a.x;
    assert dx * dx >= d * d by {
      if dx >= d {
        assert dx * dx >= d * dx >= d * d;
      } else {
        assert -dx >= d;
        assert (-dx) * (-dx) >= d * (-dx) >= d * d;
      }
    }
  }
}
