/** Two-dimensional points as the handler uses them (xoj::util::Point<double>).
    Coordinates are exact reals: rounding of doubles is not modelled. */
module Points {

  datatype Point = Point(x: real, y: real)

  /** The default-constructed point, also the fixed `center` that tap detection measures from. */
  const Origin: Point := Point(0.0, 0.0)

  /** The {-1, -1} that the reference points hold until a touch sets them. */
  const Unset: Point := Point(-1.0, -1.0)

  function Plus(p: Point, q: Point): Point
  {
    Point(p.x + q.x, p.y + q.y)
  }

  function Minus(p: Point, q: Point): Point
  {
    Point(p.x - q.x, p.y - q.y)
  }

  /** `(p + q) / 2.0` */
  function Midpoint(p: Point, q: Point): Point
  {
    Point((p.x + q.x) / 2.0, (p.y + q.y) / 2.0)
  }

  function Abs(r: real): real
  {
    if r < 0.0 then -r else r
  }

  /** Point::distance. Its square root cannot be written over Dafny's reals, so the
      model takes it as a parameter and relies on none of its properties. */
  type Distance = (Point, Point) -> real
}
