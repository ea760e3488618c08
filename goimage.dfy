/** The parts of Go's `image` package the engines rely on: points, rectangles, decoded images. */
module GoImage {

  type Byte = bv8
  type Bytes = seq<Byte>

  datatype Point = Point(x: int, y: int)

  /** `image.Rectangle`: `min` inclusive, `max` exclusive. */
  datatype Rectangle = Rectangle(min: Point, max: Point)

  /**
   * `image.Rect(x0, y0, x1, y1)`: Go swaps the coordinates of each axis when they are given in
   * the wrong order, so the result is always well-formed and has the given corners' coordinates.
   */
  function Rect(x0: int, y0: int, x1: int, y1: int): (r: Rectangle)
    ensures r.min.x <= r.max.x && r.min.y <= r.max.y
    ensures multiset{r.min.x, r.max.x} == multiset{x0, x1}
    ensures multiset{r.min.y, r.max.y} == multiset{y0, y1}
  {
    var (lx, hx) := if x0 > x1 then (x1, x0) else (x0, x1);
    var (ly, hy) := if y0 > y1 then (y1, y0) else (y0, y1);
    Rectangle(Point(lx, ly), Point(hx, hy))
  }

  /**
   * A decoded `image.Image`: its bounds and its pixels. The pixels are opaque to this model;
   * only the library functions that produce and consume them know their meaning.
   */
  datatype Raster = Raster(bounds: Rectangle, pixels: seq<int>)

  /** An image together with the format tag `image.Decode` (or a conversion) reported for it. */
  datatype Decoded = Decoded(raster: Raster, format: string)
}
