/**
 * The anchor of a filter: the electrode port it starts from, reduced to what
 * the filter reads and writes of it (position, heading angle in radians, width).
 */
module Ports {
  datatype Point = Point(x: real, y: real)

  datatype Anchor = Anchor(origin: Point, angle: real, width: real)

  /** The port's `deltax(dx).deltay(dy)`: a copy moved along the absolute axes. */
  function Displaced(a: Anchor, dx: real, dy: real): Anchor
  {
    a.(origin := Point(a.origin.x + dx, a.origin.y + dy))
  }
}
