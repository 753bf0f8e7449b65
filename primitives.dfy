// Numbers, geometry and small wrappers shared by the brush-engine modules.
//
// Qt's value types (QPointF, QSizeF, QPoint, QRect) become datatypes; `double`
// becomes `real`, except where NaN matters, where the `Double` datatype below
// keeps it. KisPaintOp::splitCoordinate and qRound are given by their known
// definitions (floor split, round half up).

module Primitives {

  datatype Option<T> = None | Some(value: T)

  /** quint8 */
  type byte = x: int | 0 <= x < 256

  /** A double as far as the brush engine looks at it: a finite value or NaN. */
  datatype Double = Finite(value: real) | NaN

  /** QPointF */
  datatype PointF = PointF(x: real, y: real)

  /** QSizeF */
  datatype SizeF = SizeF(width: real, height: real)

  /** QPoint */
  datatype Point = Point(x: int, y: int)

  /** QSize */
  datatype Size = Size(width: int, height: int)

  /** QRect, given by its top-left corner and its size */
  datatype Rect = Rect(x: int, y: int, width: int, height: int) {
    function TopLeft(): Point { Point(x, y) }
    function Dimensions(): Size { Size(width, height) }
  }

  /** M_PI, as the double the C library defines it */
  const Pi: real := 3.141592653589793

  function Max(a: real, b: real): (m: real)
    ensures m >= a && m >= b && (m == a || m == b)
  {
    if a >= b then a else b
  }

  function Min(a: real, b: real): (m: real)
    ensures m <= a && m <= b && (m == a || m == b)
  {
    if a <= b then a else b
  }

  /** std::ceil, as an integer */
  function Ceil(r: real): (c: int)
    ensures c as real - 1.0 < r <= c as real
  {
    -((-r).Floor)
  }

  /**
   * KisPaintOp::splitCoordinate: the integer part and the fraction of a
   * coordinate, with the fraction in [0, 1) also for negative coordinates.
   */
  function SplitCoordinate(coordinate: real): (r: (int, real))
    ensures r.0 as real + r.1 == coordinate
    ensures 0.0 <= r.1 < 1.0
  {
    (coordinate.Floor, coordinate - coordinate.Floor as real)
  }

  /** The split is the only integer/fraction pair with a fraction in [0, 1). */
  lemma SplitCoordinateUnique(coordinate: real, i: int, f: real)
    requires i as real + f == coordinate && 0.0 <= f < 1.0
    ensures SplitCoordinate(coordinate) == (i, f)
  {
    var k := coordinate.Floor;
    assert k as real <= coordinate < k as real + 1.0;
    assert (k - i) as real < 1.0 && (i - k) as real < 1.0;
    assert k == i;
  }

  /** qRound: the nearest integer, halves rounded up */
  function QRound(r: real): (n: int)
    ensures n as real - 0.5 <= r < n as real + 0.5
  {
    (r + 0.5).Floor
  }

  lemma QRoundOfInteger(n: int)
    ensures QRound(n as real) == n
  {
  }

  /** QPointF::toPoint rounds each coordinate. */
  function ToPoint(p: PointF): Point
  {
    Point(QRound(p.x), QRound(p.y))
  }
}
