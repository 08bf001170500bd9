/** The small part of Qt's floating-point geometry that the alignment search uses. */
module Geometry {

  /** A QPointF, with real coordinates. */
  datatype Point = Point(x: real, y: real)

  /** A QRectF given by its top-left corner and its size. */
  datatype Rect = Rect(left: real, top: real, width: real, height: real)

  function Abs(v: real): (r: real)
    ensures r >= 0.0 && (r == v || r == -v)
  {
    if v < 0.0 then -v else v
  }

  /** QPointF subtraction. */
  function Sub(a: Point, b: Point): (r: Point)
    ensures Point(r.x + b.x, r.y + b.y) == a
  {
    Point(a.x - b.x, a.y - b.y)
  }

  /** QRectF.center(). */
  function Centre(r: Rect): (c: Point)
    ensures c.x - r.left == r.width / 2.0 && c.y - r.top == r.height / 2.0
  {
    Point(r.left + r.width / 2.0, r.top + r.height / 2.0)
  }

  /** QRectF.translate(dx, dy): moves the rectangle, keeping its size. */
  function Translate(r: Rect, dx: real, dy: real): (t: Rect)
    ensures t.width == r.width && t.height == r.height
    ensures t.left - r.left == dx && t.top - r.top == dy
  {
    Rect(r.left + dx, r.top + dy, r.width, r.height)
  }
}
