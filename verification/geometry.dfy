/**
 * The geometry of the frame processor: 2-D joints with a visibility score,
 * their arithmetic, Euclidean distance and the orientation-aware angle at a
 * vertex. Coordinates are exact reals.
 *
 * `np.sqrt` and `np.rad2deg(np.arccos(..))` are not computed here: they are the
 * two functions of a `Trig` record, and `Sound` states the only facts about
 * them that the model relies on. numpy does not raise on coincident points: the
 * angle is then NaN, written `None` here, and every comparison with it is
 * false (`Lt`, `Gt`).
 */
module Geometry {

  import opened Wrappers

  /** A joint: coordinates and the detector's visibility score. */
  datatype Point = Point(x: real, y: real, visibility: real)

  /** `p + q`: the visibility of a sum is the mean of the two visibilities. */
  function Add(p: Point, q: Point): Point {
    Point(p.x + q.x, p.y + q.y, (p.visibility + q.visibility) * 0.5)
  }

  /** `p - q`: visibilities are averaged as for `+`. */
  function Sub(p: Point, q: Point): Point {
    Point(p.x - q.x, p.y - q.y, (p.visibility + q.visibility) * 0.5)
  }

  /** `p * k` for a scalar `k`: the visibility is kept. */
  function Scale(p: Point, k: real): Point {
    Point(p.x * k, p.y * k, p.visibility)
  }

  /** The same position, whatever the visibility. */
  predicate SamePlace(p: Point, q: Point) {
    p.x == q.x && p.y == q.y
  }

  /** Point arithmetic keeps visibility scores inside [0, 1]. */
  lemma VisibilityInUnit(p: Point, q: Point, k: real)
    requires 0.0 <= p.visibility <= 1.0 && 0.0 <= q.visibility <= 1.0
    ensures 0.0 <= Add(p, q).visibility <= 1.0 && Add(p, q).visibility == Sub(p, q).visibility
    ensures Scale(p, k).visibility == p.visibility
    ensures Scale(Add(p, q), k).visibility == (p.visibility + q.visibility) / 2.0
  {
  }

  /** `(p + q) - q` is back at `p` (its visibility is a blend, though). */
  lemma SubUndoesAdd(p: Point, q: Point)
    ensures SamePlace(Sub(Add(p, q), q), p)
    ensures Sub(Add(p, q), q).visibility == (p.visibility + 3.0 * q.visibility) / 4.0
  {
  }

  /** The square root and the arc cosine in degrees, supplied by numpy. */
  datatype Trig = Trig(sqrt: real -> real, acosDeg: real -> real)

  /**
   * A product of two reals. Every product of two variable quantities in this
   * module goes through `Mul`, so that the sign facts below are stated once.
   */
  function Mul(a: real, b: real): real {
    a * b
  }

  /** `a ** 2` */
  function Sq(a: real): real {
    Mul(a, a)
  }

  /** What the model assumes of `np.sqrt` and `np.rad2deg(np.arccos(..))`. */
  ghost predicate Sound(t: Trig) {
    && (forall x :: 0.0 <= x ==> 0.0 <= t.sqrt(x) && Sq(t.sqrt(x)) == x)
    && (forall c :: 0.0 <= t.acosDeg(c) <= 180.0)
    && (forall c :: t.acosDeg(c) == 0.0 ==> c >= 1.0)
    && t.acosDeg(1.0) == 0.0
    && t.acosDeg(-1.0) == 180.0
  }

  /** The squared length of the vector `v` (a difference of two points). */
  function Norm2(v: Point): real {
    Sq(v.x) + Sq(v.y)
  }

  /** Dot product of two vectors. */
  function Dot(u: Point, v: Point): real {
    Mul(u.x, v.x) + Mul(u.y, v.y)
  }

  /** The 2-D cross product (determinant) of two vectors. */
  function Det(u: Point, v: Point): real {
    Mul(u.x, v.y) - Mul(u.y, v.x)
  }

  /** `_get_distance`: `sqrt((p - q).x ** 2 + (p - q).y ** 2)`. */
  function Distance(t: Trig, p: Point, q: Point): real {
    t.sqrt(Norm2(Sub(p, q)))
  }

  /** Helper: the sign of a product of two non-zero numbers. */
  lemma MulSign(a: real, b: real)
    ensures a > 0.0 && b > 0.0 ==> Mul(a, b) > 0.0
    ensures a < 0.0 && b < 0.0 ==> Mul(a, b) > 0.0
    ensures a == 0.0 || b == 0.0 ==> Mul(a, b) == 0.0
  {
    if a < 0.0 && b < 0.0 {
      assert Mul(a, b) == Mul(-a, -b);
    }
  }

  /** Helper: squares are non-negative, and zero only for zero. */
  lemma SquareSign(a: real)
    ensures Sq(a) >= 0.0
    ensures Sq(a) == 0.0 <==> a == 0.0
  {
    MulSign(a, a);
  }

  /** Helper: a squared length is zero exactly for the zero vector. */
  lemma Norm2Sign(v: Point)
    ensures Norm2(v) >= 0.0
    ensures Norm2(v) == 0.0 <==> v.x == 0.0 && v.y == 0.0
  {
    SquareSign(v.x);
    SquareSign(v.y);
  }

  /** Helper: squaring is strictly monotone on non-negative numbers. */
  lemma SquareMono(a: real, b: real)
    requires 0.0 <= a < b
    ensures Sq(a) < Sq(b)
  {
    assert Sq(b) - Sq(a) == Mul(b - a, b + a);
    MulSign(b - a, b + a);
  }

  /** Helper: what `Sound` gives about one square root. */
  lemma SqrtFacts(t: Trig, x: real)
    requires Sound(t) && x >= 0.0
    ensures t.sqrt(x) >= 0.0 && Sq(t.sqrt(x)) == x
    ensures x > 0.0 <==> t.sqrt(x) > 0.0
  {
    SquareSign(t.sqrt(x));
  }

  /** Helper: the square root of a square is the non-negative base. */
  lemma SqrtOfSquare(t: Trig, q: real)
    requires Sound(t) && q >= 0.0
    ensures t.sqrt(Sq(q)) == q
  {
    SquareSign(q);
    var s := t.sqrt(Sq(q));
    SqrtFacts(t, Sq(q));
    if s < q {
      SquareMono(s, q);
    } else if q < s {
      SquareMono(q, s);
    }
  }

  /** Distance is non-negative, symmetric, and zero exactly for the same position. */
  lemma DistanceProperties(t: Trig, p: Point, q: Point)
    requires Sound(t)
    ensures Distance(t, p, q) >= 0.0
    ensures Distance(t, p, q) == Distance(t, q, p)
    ensures Distance(t, p, q) == 0.0 <==> SamePlace(p, q)
  {
    var d, e := Sub(p, q), Sub(q, p);
    assert Sq(e.x) == Sq(d.x) by { assert e.x == -d.x; }
    assert Sq(e.y) == Sq(d.y) by { assert e.y == -d.y; }
    Norm2Sign(d);
    SqrtFacts(t, Norm2(d));
  }

  /** Neither ray of the angle has length zero. */
  predicate NonDegenerate(p1: Point, p2: Point, p3: Point) {
    !SamePlace(p1, p2) && !SamePlace(p3, p2)
  }

  /** Helper: Lagrange's identity in two dimensions. */
  lemma Lagrange(u: Point, v: Point)
    ensures Mul(Norm2(u), Norm2(v)) == Sq(Dot(u, v)) + Sq(Det(u, v))
  {
    var a, b, c, d := u.x, u.y, v.x, v.y;
    assert (a * a + b * b) * (c * c + d * d) == (a * c + b * d) * (a * c + b * d) + (a * d - b * c) * (a * d - b * c);
  }

  /** Helper: the square root in `_get_angle` is zero exactly when a ray has length zero. */
  lemma ModProduct(t: Trig, u: Point, v: Point)
    requires Sound(t)
    ensures Mul(Norm2(u), Norm2(v)) >= 0.0
    ensures t.sqrt(Mul(Norm2(u), Norm2(v))) >= 0.0
    ensures t.sqrt(Mul(Norm2(u), Norm2(v))) == 0.0 <==> (u.x == 0.0 && u.y == 0.0) || (v.x == 0.0 && v.y == 0.0)
  {
    Norm2Sign(u);
    Norm2Sign(v);
    MulSign(Norm2(u), Norm2(v));
    SqrtFacts(t, Mul(Norm2(u), Norm2(v)));
  }

  /** Helper: a quotient of at least one with a positive divisor means a dividend at least the divisor. */
  lemma QuotientAtLeastOne(d: real, m: real)
    requires m > 0.0 && d / m >= 1.0
    ensures d >= m
  {
    assert d == Mul(d / m, m);
    assert Mul(d / m, m) - m == Mul(d / m - 1.0, m);
    MulSign(d / m - 1.0, m);
  }

  /**
   * `_get_angle(p1, p2, p3)`: the angle at `p2` between the rays to `p1` and
   * `p3`, taken as `360 - angle` when the determinant is negative. NaN (None)
   * when a ray has length zero.
   */
  function Angle(t: Trig, p1: Point, p2: Point, p3: Point): (r: Option<real>)
    requires Sound(t)
    ensures r.Some? <==> NonDegenerate(p1, p2, p3)
    ensures r.Some? ==> 0.0 <= r.value < 360.0
  {
    var ab, bc := Sub(p1, p2), Sub(p3, p2);
    ModProduct(t, ab, bc);
    var modProd := t.sqrt(Mul(Norm2(ab), Norm2(bc)));
    if modProd == 0.0 then None
    else
      var a := t.acosDeg(Dot(ab, bc) / modProd);
      AngleNotFull(t, ab, bc);
      Some(if Det(ab, bc) < 0.0 then 360.0 - a else a)
  }

  /** Helper: the arc cosine is zero only when the determinant is zero too. */
  lemma AngleNotFull(t: Trig, u: Point, v: Point)
    requires Sound(t) && t.sqrt(Mul(Norm2(u), Norm2(v))) != 0.0
    ensures t.acosDeg(Dot(u, v) / t.sqrt(Mul(Norm2(u), Norm2(v)))) == 0.0 ==> Det(u, v) == 0.0
  {
    ModProduct(t, u, v);
    var p := Mul(Norm2(u), Norm2(v));
    SqrtFacts(t, p);
    var m := t.sqrt(p);
    if t.acosDeg(Dot(u, v) / m) == 0.0 {
      QuotientAtLeastOne(Dot(u, v), m);
      if m < Dot(u, v) {
        SquareMono(m, Dot(u, v));
      }
      Lagrange(u, v);
      SquareSign(Det(u, v));
    }
  }

  /** `min(a, 360 - a)`: Python's `min` keeps its first argument unless the second is smaller. */
  function Fold(a: Option<real>): (r: Option<real>)
    ensures r.Some? <==> a.Some?
    ensures a.Some? && 0.0 <= a.value <= 360.0 ==> 0.0 <= r.value <= 180.0
    ensures a.Some? ==> r.value == a.value || r.value == 360.0 - a.value
  {
    match a
    case None => None
    case Some(v) => Some(if 360.0 - v < v then 360.0 - v else v)
  }

  /** `a < c` where `a` may be NaN. */
  predicate Lt(a: Option<real>, c: real) {
    a.Some? && a.value < c
  }

  /** `a > c` where `a` may be NaN. */
  predicate Gt(a: Option<real>, c: real) {
    a.Some? && a.value > c
  }

  /** Helper: a non-zero number divided by itself or by its negation. */
  lemma DivideSelf(d: real)
    requires d != 0.0
    ensures d / d == 1.0 && d / (-d) == -1.0
  {
  }

  /** For three points on one line the angle is 0 (same side) or 180 (opposite sides). */
  lemma CollinearAngle(t: Trig, p1: Point, p2: Point, p3: Point)
    requires Sound(t) && NonDegenerate(p1, p2, p3)
    requires Det(Sub(p1, p2), Sub(p3, p2)) == 0.0
    ensures Dot(Sub(p1, p2), Sub(p3, p2)) > 0.0 ==> Angle(t, p1, p2, p3) == Some(0.0)
    ensures Dot(Sub(p1, p2), Sub(p3, p2)) < 0.0 ==> Angle(t, p1, p2, p3) == Some(180.0)
    ensures Angle(t, p1, p2, p3) == Some(0.0) || Angle(t, p1, p2, p3) == Some(180.0)
  {
    var u, v := Sub(p1, p2), Sub(p3, p2);
    var dot := Dot(u, v);
    ModProduct(t, u, v);
    Lagrange(u, v);
    SquareSign(Det(u, v));
    assert Mul(Norm2(u), Norm2(v)) == Sq(dot);
    if dot >= 0.0 {
      SqrtOfSquare(t, dot);
      DivideSelf(dot);
    } else {
      SqrtOfSquare(t, -dot);
      assert Sq(-dot) == Sq(dot);
      DivideSelf(dot);
    }
  }

  /** Moving every point by the same offset changes neither distances nor angles. */
  lemma TranslationInvariant(t: Trig, p1: Point, p2: Point, p3: Point, d: Point)
    requires Sound(t)
    ensures Distance(t, Add(p1, d), Add(p2, d)) == Distance(t, p1, p2)
    ensures Angle(t, Add(p1, d), Add(p2, d), Add(p3, d)) == Angle(t, p1, p2, p3)
  {
    var u, v := Sub(p1, p2), Sub(p3, p2);
    var u', v' := Sub(Add(p1, d), Add(p2, d)), Sub(Add(p3, d), Add(p2, d));
    assert u'.x == u.x && u'.y == u.y && v'.x == v.x && v'.y == v.y;
    assert Norm2(u') == Norm2(u) && Norm2(v') == Norm2(v);
    assert Dot(u', v') == Dot(u, v) && Det(u', v') == Det(u, v);
  }

  /** Helper: products with a negated factor, and the order of factors. */
  lemma MulAlgebra(a: real, b: real, c: real)
    ensures Mul(a, -b) == -Mul(a, b) && Mul(a, b) == Mul(b, a)
    ensures Mul(a, c) + Mul(b, c) == Mul(a + b, c)
  {
  }

  /**
   * The angle at the midpoint of two distinct points, between the rays back to
   * them, is a straight angle; for coincident points it is NaN.
   */
  lemma MidpointAngle(t: Trig, a: Point, b: Point)
    requires Sound(t)
    ensures SamePlace(a, b) ==> Angle(t, a, Scale(Add(a, b), 0.5), b) == None
    ensures !SamePlace(a, b) ==> Angle(t, a, Scale(Add(a, b), 0.5), b) == Some(180.0)
  {
    var m := Scale(Add(a, b), 0.5);
    var u, v := Sub(a, m), Sub(b, m);
    assert v.x == -u.x && v.y == -u.y;
    MulAlgebra(u.x, u.y, 0.0);
    MulAlgebra(u.y, u.x, 0.0);
    MulAlgebra(u.x, u.x, 0.0);
    MulAlgebra(u.y, u.y, 0.0);
    assert Det(u, v) == 0.0;
    assert Dot(u, v) == -Norm2(u);
    Norm2Sign(u);
    if !SamePlace(a, b) {
      CollinearAngle(t, a, m, b);
    }
  }
}
