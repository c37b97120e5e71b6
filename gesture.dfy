/**
 * Pointer geometry: screen points and the straight-line swipe that a
 * `scroll` message turns into, anchored at the last touched point.
 */
module Gesture {

  datatype Point = Point(x: real, y: real)

  /** A one-stroke swipe from `start` to `end`, as handed to injectScroll. */
  datatype Stroke = Stroke(start: Point, end: Point)

  /** Horizontal swipe length per unit of `dx`. */
  const HorizontalStep: real := 10.0
  /** Vertical swipe length per unit of `dy`; the sign is inverted for natural scrolling. */
  const VerticalStep: real := 50.0

  /** `value || fallback` on a coordinate: zero is falsy in JavaScript. */
  function OrElse(value: real, fallback: real): real {
    if value != 0.0 then value else fallback
  }

  /**
   * The swipe for a scroll of (dx, dy): it starts at the last touched point,
   * each coordinate that is still zero replaced by the screen centre, and it
   * moves 10 per unit of dx to the right and 50 per unit of dy upwards.
   */
  function ScrollStroke(lastTouch: Point, width: real, height: real, dx: real, dy: real): (g: Stroke)
    ensures g.start.x == (if lastTouch.x == 0.0 then width / 2.0 else lastTouch.x)
    ensures g.start.y == (if lastTouch.y == 0.0 then height / 2.0 else lastTouch.y)
    ensures g.end.x - g.start.x == HorizontalStep * dx
    ensures g.start.y - g.end.y == VerticalStep * dy
    ensures g.start == g.end <==> dx == 0.0 && dy == 0.0
  {
    var startX := OrElse(lastTouch.x, width / 2.0);
    var startY := OrElse(lastTouch.y, height / 2.0);
    Stroke(Point(startX, startY), Point(startX + dx * HorizontalStep, startY - dy * VerticalStep))
  }
}
