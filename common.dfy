/** Shared value types: optional values, results with an error, and points in drawing space. */
module Common {

  datatype Option<T> = None | Some(value: T)

  datatype Result<T, E> = Ok(value: T) | Err(error: E)

  /** A point (x, y); drawing-space points are relative to the calibrated origin. */
  datatype Point = Point(x: real, y: real)

  const Origin: Point := Point(0.0, 0.0)

  function Abs(r: real): real
  {
    if r < 0.0 then -r else r
  }

  function Add(p: Point, q: Point): Point
  {
    Point(p.x + q.x, p.y + q.y)
  }

  /** Squared Euclidean distance between two points. */
  function Dist2(p: Point, q: Point): real
  {
    (p.x - q.x) * (p.x - q.x) + (p.y - q.y) * (p.y - q.y)
  }

  /**
   * `np.linalg.norm(p - q) < m`. The norm is the non-negative square root of
   * Dist2, so it is below m exactly when m is positive and Dist2 is below m*m.
   */
  predicate NormBelow(p: Point, q: Point, m: real)
  {
    m > 0.0 && Dist2(p, q) < m * m
  }
}
