/** A vector path as the renderer receives it: the list of drawing commands that
    were appended to it, in order. */
module Paths {
  datatype PathCommand =
    | MoveTo(x: real, y: real)
    | LineTo(x: real, y: real)
    | QuadTo(cx: real, cy: real, x: real, y: real)
    | BezierTo(c1x: real, c1y: real, c2x: real, c2y: real, x: real, y: real)
    | Close

  datatype Path = Path(commands: seq<PathCommand>)
}

/** The outline commands the swash scaler produces (its `zeno` path data). */
module Zeno {
  datatype Point = Point(x: real, y: real)

  datatype Command =
    | MoveTo(p: Point)
    | LineTo(p: Point)
    | QuadTo(c: Point, p: Point)
    | CurveTo(c1: Point, c2: Point, p: Point)
    | Close

  /** An axis-aligned bounding box; `Width` and `Height` are its extents. */
  datatype Bounds = Bounds(min: Point, max: Point) {
    function Width(): real { max.x - min.x }
    function Height(): real { max.y - min.y }
  }
}
