/** Plane geometry shared by both axes: points, frame sizes and gridline segments.
    Coordinates are exact reals, in the coordinates of the shape being drawn. */
module Geometry {

  datatype Point = Point(x: real, y: real)

  datatype Size = Size(width: real, height: real)

  /** A gridline, drawn from `start` to `end`. */
  datatype Segment = Segment(start: Point, end: Point) {

    predicate IsVertical() {
      start.x == end.x
    }

    predicate IsHorizontal() {
      start.y == end.y
    }
  }
}
