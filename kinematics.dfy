/**
 * Cord kinematics of the V-plotter. Two cords hang from anchors at (0, 0) and
 * (base, 0) (y grows downwards); the pen hangs where they meet. The physics
 * engine turns a pair of cord lengths into that meeting point (the origin of
 * drawing space) and turns a drawing-space point back into cord lengths.
 *
 * `np.sqrt` is a library routine, so it is a parameter `sqrt` of the model;
 * the results that need it to be exact assume `IsSqrt(sqrt)`.
 */
module Kinematics {
  import opened Common

  /** Plotter calibration: anchor distance, origin in anchor coordinates, steps per millimetre, movement resolution. */
  datatype Calibration = Calibration(base: real, origin: Point, stepsPerMM: real, resolution: real)

  /** A pair of cord lengths: `left` to the anchor (0, 0), `right` to the anchor (base, 0). */
  datatype Lengths = Lengths(left: real, right: real)

  datatype EngineError =
    | NotImplemented      // the abstract engine
    | InvalidCalibration  // the cord lengths cannot meet across the base
    | DivisionByZero      // a base of zero

  /** The physics engine classes: the abstract base class and the simple one. */
  datatype EngineClass = BaseEngine | SimpleEngine

  /** An engine instance bound to a calibration. */
  datatype PhysicsEngine = PhysicsEngine(cls: EngineClass, calib: Calibration)

  /** sqrt is the exact non-negative square root on non-negative arguments. */
  ghost predicate IsSqrt(sqrt: real -> real)
  {
    forall a :: a >= 0.0 ==> sqrt(a) >= 0.0 && sqrt(a) * sqrt(a) == a
  }

  /** The right anchor; the left one is (0, 0). */
  function RightAnchor(base: real): Point
  {
    Point(base, 0.0)
  }

  /** o is at distance `left` from (0, 0) and at distance `right` from (base, 0), measured on squares. */
  predicate OnCords(o: Point, l: Lengths, base: real)
  {
    Dist2(o, Origin) == l.left * l.left && Dist2(o, RightAnchor(base)) == l.right * l.right
  }

  /** The three triangle inequalities between the base and the two cords. */
  predicate Triangle(l: Lengths, base: real)
  {
    base <= l.left + l.right && l.left <= base + l.right && l.right <= base + l.left
  }

  /** The x of the origin: where the two cord circles' common chord meets the base line. */
  function OriginX(l: Lengths, base: real): real
    requires base != 0.0
  {
    (base * base + l.left * l.left - l.right * l.right) / (2.0 * base)
  }

  /** The argument of the square root that gives the origin's y. */
  function Radicand(l: Lengths, base: real): real
    requires base != 0.0
  {
    var x := OriginX(l, base);
    l.right * l.right - (base - x) * (base - x)
  }

  /**
   * `SimplePhysicsEngine.calcOrigin` as written: it refuses only a base longer
   * than both cords together, and then takes the square root unchecked.
   */
  function CalcOriginAsWritten(l: Lengths, base: real, sqrt: real -> real): (r: Result<Point, EngineError>)
    ensures r.Ok? <==> base <= l.left + l.right && base != 0.0
    ensures r.Ok? ==> r.value.x == OriginX(l, base)
  {
    if base > l.left + l.right then Err(InvalidCalibration)
    else if base == 0.0 then Err(DivisionByZero)
    else Ok(Point(OriginX(l, base), sqrt(Radicand(l, base))))
  }

  /**
   * `SimplePhysicsEngine.calcOrigin` with the guard the computation needs: all
   * three triangle inequalities, so the square root argument is never negative.
   */
  function CalcOriginChecked(l: Lengths, base: real, sqrt: real -> real): (r: Result<Point, EngineError>)
    ensures r.Ok? <==> Triangle(l, base) && base != 0.0
    ensures r.Ok? ==> r.value.x == OriginX(l, base) && Radicand(l, base) >= 0.0
  {
    if !Triangle(l, base) then Err(InvalidCalibration)
    else if base == 0.0 then Err(DivisionByZero)
    else
      RadicandNonNegative(l, base);
      Ok(Point(OriginX(l, base), sqrt(Radicand(l, base))))
  }

  /** `calcOrigin` of an engine class: abstract in the base class. */
  function CalcOrigin(cls: EngineClass, l: Lengths, base: real, sqrt: real -> real): (r: Result<Point, EngineError>)
    ensures r.Ok? <==> cls == SimpleEngine && Triangle(l, base) && base != 0.0
    ensures cls == BaseEngine ==> r == Err(NotImplemented)
  {
    match cls
    case BaseEngine => Err(NotImplemented)
    case SimpleEngine => CalcOriginChecked(l, base, sqrt)
  }

  /** `SimplePhysicsEngine.point2CordLength`: shift by the origin, then the distances to both anchors. */
  function CordLengths(calib: Calibration, p: Point, sqrt: real -> real): Lengths
  {
    AnchorDistances(Add(p, calib.origin), calib.base, sqrt)
  }

  /** The distances of a point in anchor coordinates to the anchors (0, 0) and (base, 0). */
  function AnchorDistances(q: Point, base: real, sqrt: real -> real): Lengths
  {
    Lengths(sqrt(Dist2(q, Origin)), sqrt(Dist2(q, RightAnchor(base))))
  }

  /** `point2CordLength` of an engine: abstract in the base class. */
  function Point2CordLength(e: PhysicsEngine, p: Point, sqrt: real -> real): (r: Result<Lengths, EngineError>)
    ensures e.cls == BaseEngine <==> r == Err(NotImplemented)
    ensures r.Ok? ==> r.value == CordLengths(e.calib, p, sqrt)
  {
    match e.cls
    case BaseEngine => Err(NotImplemented)
    case SimpleEngine => Ok(CordLengths(e.calib, p, sqrt))
  }

  lemma RealProductNonNegative(a: real, b: real)
    requires a >= 0.0 && b >= 0.0
    ensures a * b >= 0.0
  {
  }

  lemma MulPositive(a: real, b: real)
    requires a > 0.0 && b > 0.0
    ensures a * b > 0.0
  {
  }

  lemma CancelPositive(k: real, x: real, y: real)
    requires k > 0.0 && k * x <= k * y
    ensures x <= y
  {
    PositiveFactor(k, x - y);
  }

  lemma PositiveFactor(a: real, b: real)
    requires a > 0.0
    ensures b > 0.0 ==> a * b > 0.0
  {
  }

  lemma SquareNonNegative(a: real)
    ensures a * a >= 0.0
  {
    if a < 0.0 {
      RealProductNonNegative(-a, -a);
    } else {
      RealProductNonNegative(a, a);
    }
  }

  /** A non-negative s whose square is at least t*t is at least |t|. */
  lemma RootDominates(s: real, t: real)
    requires s >= 0.0 && s * s >= t * t
    ensures s >= t && s >= -t
  {
    if s < t {
      MulPositive(t - s, t + s);
    } else if s < -t {
      MulPositive(-t - s, s - t);
    }
  }

  /** The square root of the square of a non-negative a is a. */
  lemma SqrtOfSquare(sqrt: real -> real, v: real, a: real)
    requires IsSqrt(sqrt) && a >= 0.0 && v == a * a
    ensures sqrt(v) == a
  {
    RealProductNonNegative(a, a);
    var s := sqrt(v);
    assert s >= 0.0 && s * s == a * a;
    RootDominates(s, a);
    RootDominates(a, s);
  }

  /** Inside the triangle inequalities the origin's square root argument is not negative. */
  lemma RadicandNonNegative(l: Lengths, base: real)
    requires Triangle(l, base) && base != 0.0
    ensures Radicand(l, base) >= 0.0
  {
    var b, l0, l1 := base, l.left, l.right;
    assert l0 >= 0.0 && l1 >= 0.0;
    if b < 0.0 {
      // three sides with a negative one: the inequalities force b = 0
      assert false;
    }
    var d := b - OriginX(l, b);
    assert 2.0 * b * d == b * b - l0 * l0 + l1 * l1;
    HalfChordBounds(b, l0, l1, d);
    RealProductNonNegative(l1 - d, l1 + d);
    DiffSquares(l1, d);
  }

  /**
   * The foot d of the chord, measured from the right anchor, lies within the
   * right cord's length on either side.
   */
  lemma HalfChordBounds(b: real, l0: real, l1: real, d: real)
    requires b > 0.0 && l0 >= 0.0 && l1 >= 0.0
    requires b <= l0 + l1 && l0 <= b + l1 && l1 <= b + l0
    requires 2.0 * b * d == b * b - l0 * l0 + l1 * l1
    ensures -l1 <= d <= l1
  {
    // d <= l1, since (b - l1)^2 <= l0^2
    RealProductNonNegative(l0 - (b - l1), l0 + (b - l1));
    DiffSquares(l0, b - l1);
    SquareOfDifference(b, l1);
    assert 2.0 * b * d <= 2.0 * b * l1;
    CancelPositive(2.0 * b, d, l1);
    // -l1 <= d, since l0^2 <= (b + l1)^2
    RealProductNonNegative(b + l1 - l0, b + l1 + l0);
    DiffSquares(b + l1, l0);
    SquareOfSum(b, l1);
    assert (2.0 * b) * (-l1) <= (2.0 * b) * d;
    CancelPositive(2.0 * b, -l1, d);
  }

  lemma DiffSquares(u: real, v: real)
    ensures (u - v) * (u + v) == u * u - v * v
  {
  }

  lemma SquareOfSum(u: real, v: real)
    ensures (u + v) * (u + v) == u * u + 2.0 * u * v + v * v
  {
  }

  lemma SquareOfDifference(u: real, v: real)
    ensures (u - v) * (u - v) == u * u - 2.0 * u * v + v * v
  {
  }

  /** The checked origin lies on both cords, below the anchor line. */
  lemma CalcOriginOnCords(l: Lengths, base: real, sqrt: real -> real)
    requires IsSqrt(sqrt)
    requires CalcOriginChecked(l, base, sqrt).Ok?
    ensures var o := CalcOriginChecked(l, base, sqrt).value;
      OnCords(o, l, base) && o.y >= 0.0
  {
    var o := CalcOriginChecked(l, base, sqrt).value;
    var r := Radicand(l, base);
    assert o.y * o.y == r;
    assert 2.0 * base * o.x == base * base + l.left * l.left - l.right * l.right;
  }

  /**
   * With the numbers of the counterexample the guard of calcOrigin passes, yet
   * no point at all lies on both cords: the square root argument is negative.
   */
  lemma CalcOriginGuardTooWeak(sqrt: real -> real)
    ensures var l, base := Lengths(10.0, 1.0), 2.0;
      CalcOriginAsWritten(l, base, sqrt).Ok?
      && Radicand(l, base) < 0.0
      && (forall o :: !OnCords(o, l, base))
      && CalcOriginChecked(l, base, sqrt) == Err(InvalidCalibration)
  {
    var l, base := Lengths(10.0, 1.0), 2.0;
    assert OriginX(l, base) == 25.75;
    forall o | OnCords(o, l, base)
      ensures false
    {
      SquareNonNegative(o.y);
    }
  }

  /** Both cord lengths are non-negative and their squares are the squared distances to the anchors. */
  lemma CordLengthsSquares(calib: Calibration, p: Point, sqrt: real -> real)
    requires IsSqrt(sqrt)
    ensures var l := CordLengths(calib, p, sqrt);
      l.left >= 0.0 && l.right >= 0.0 && OnCords(Add(p, calib.origin), l, calib.base)
  {
    var q := Add(p, calib.origin);
    SquareNonNegative(q.x);
    SquareNonNegative(q.y);
    SquareNonNegative(calib.base - q.x);
  }

  /** Non-negative lengths that a point is on are its distances to the anchors. */
  lemma DistancesOnCords(o: Point, l: Lengths, base: real, sqrt: real -> real)
    requires IsSqrt(sqrt) && l.left >= 0.0 && l.right >= 0.0
    requires OnCords(o, l, base)
    ensures AnchorDistances(o, base, sqrt) == l
  {
    SqrtOfSquare(sqrt, Dist2(o, Origin), l.left);
    SqrtOfSquare(sqrt, Dist2(o, RightAnchor(base)), l.right);
  }

  /**
   * Round trip lengths -> origin -> lengths: with the origin computed from
   * non-negative initial lengths, the drawing-space point (0, 0) has exactly
   * those cord lengths.
   */
  lemma OriginHasInitialLengths(l: Lengths, base: real, calib: Calibration, sqrt: real -> real)
    requires IsSqrt(sqrt)
    requires CalcOriginChecked(l, base, sqrt).Ok?
    requires calib.base == base && calib.origin == CalcOriginChecked(l, base, sqrt).value
    ensures CordLengths(calib, Origin, sqrt) == l
  {
    CalcOriginOnCords(l, base, sqrt);
    assert Triangle(l, base);
    assert l.left >= 0.0 && l.right >= 0.0;
    assert Add(Origin, calib.origin) == calib.origin;
    DistancesOnCords(calib.origin, l, base, sqrt);
  }

  /** Non-negative distances of (x, y) to (0, 0) and (b, 0) satisfy the triangle inequalities. */
  lemma TriangleOfSquares(x: real, y: real, l0: real, l1: real, b: real)
    requires b > 0.0 && l0 >= 0.0 && l1 >= 0.0
    requires x * x + y * y == l0 * l0 && (b - x) * (b - x) + y * y == l1 * l1
    ensures Triangle(Lengths(l0, l1), b)
  {
    SquareNonNegative(y);
    RootDominates(l0, x);
    RootDominates(l1, b - x);
    // (b + l1)^2 - l0^2 == 2b(b - x + l1) and (b + l0)^2 - l1^2 == 2b(l0 + x)
    RealProductNonNegative(2.0 * b, b - x + l1);
    assert (b + l1) * (b + l1) - l0 * l0 == 2.0 * b * (b - x + l1);
    RootDominates(b + l1, l0);
    RealProductNonNegative(2.0 * b, l0 + x);
    assert (b + l0) * (b + l0) - l1 * l1 == 2.0 * b * (l0 + x);
    RootDominates(b + l0, l1);
  }

  /** Lengths that are the distances of q to the anchors solve back to q. */
  lemma TriangleOfDistances(q: Point, l: Lengths, b: real)
    requires b > 0.0 && l.left >= 0.0 && l.right >= 0.0
    requires OnCords(q, l, b)
    ensures Triangle(l, b) && OriginX(l, b) == q.x && Radicand(l, b) == q.y * q.y
  {
    assert q.x * q.x + q.y * q.y == l.left * l.left;
    assert (b - q.x) * (b - q.x) + q.y * q.y == l.right * l.right;
    TriangleOfSquares(q.x, q.y, l.left, l.right, b);
    assert l.left * l.left - l.right * l.right == 2.0 * b * q.x - b * b;
    QuotientOf(b * b + l.left * l.left - l.right * l.right, 2.0 * b, q.x);
  }

  lemma QuotientOf(a: real, d: real, x: real)
    requires d != 0.0 && a == d * x
    ensures a / d == x
  {
  }

  /**
   * Round trip point -> lengths -> point: solving the triangle on the cord
   * lengths of a point on or below the anchor line gives that point back.
   */
  lemma CalcOriginInverts(calib: Calibration, p: Point, sqrt: real -> real)
    requires IsSqrt(sqrt) && calib.base > 0.0
    requires Add(p, calib.origin).y >= 0.0
    ensures CalcOriginChecked(CordLengths(calib, p, sqrt), calib.base, sqrt) == Ok(Add(p, calib.origin))
  {
    var q, b := Add(p, calib.origin), calib.base;
    var l := CordLengths(calib, p, sqrt);
    CordLengthsSquares(calib, p, sqrt);
    TriangleOfDistances(q, l, b);
    SqrtOfSquare(sqrt, Radicand(l, b), q.y);
  }
}
