/** Two-dimensional value arithmetic (the Ruby `Vector` class).
    Every operator builds a new value component by component. */
module Vectors {

  datatype Vector = Vector(x: real, y: real)

  function Add(v: Vector, w: Vector): Vector { Vector(v.x + w.x, v.y + w.y) }

  function Sub(v: Vector, w: Vector): Vector { Vector(v.x - w.x, v.y - w.y) }

  function Mul(v: Vector, w: Vector): Vector { Vector(v.x * w.x, v.y * w.y) }

  function Div(v: Vector, w: Vector): Vector
    requires w.x != 0.0 && w.y != 0.0
  {
    Vector(v.x / w.x, v.y / w.y)
  }

  /** Ruby's `%` on numbers: the remainder of floored division, so it takes
      the sign of the divisor. For a positive divisor the result is the
      representative of `a` in `[0, d)`, and it equals `a` exactly when `a`
      already lies in that interval. */
  function Mod(a: real, d: real): (r: real)
    requires d != 0.0
    ensures d > 0.0 ==> 0.0 <= r < d
    ensures d < 0.0 ==> d < r <= 0.0
    ensures d > 0.0 ==> (r == a <==> 0.0 <= a < d)
  {
    FloorBounds(a, d);
    if d > 0.0 then FixedPoint(a, d); a - d * ((a / d).Floor as real)
    else a - d * ((a / d).Floor as real)
  }

  /** The floored quotient, multiplied back by the divisor, brackets `a`. */
  lemma FloorBounds(a: real, d: real)
    requires d != 0.0
    ensures d > 0.0 ==> d * ((a / d).Floor as real) <= a < d * ((a / d).Floor as real) + d
    ensures d < 0.0 ==> d * ((a / d).Floor as real) + d < a <= d * ((a / d).Floor as real)
  {
    var t := a / d;
    var q := t.Floor as real;
    assert a == d * t;
    assert q <= t < q + 1.0;
    if d > 0.0 {
      MulMono(d, q, t);
      MulStrict(d, t, q + 1.0);
      assert d * (q + 1.0) == d * q + d;
      assert d * t < d * (q + 1.0);
      assert a < d * q + d;
    } else {
      MulMono(-d, q, t);
      MulStrict(-d, t, q + 1.0);
      assert -d * (q + 1.0) == -d * q - d;
      assert -d * q == -(d * q) && -d * t == -(d * t);
      assert d * q + d < a;
    }
  }

  /** For a positive divisor the quotient floors to zero exactly when `a`
      lies in `[0, d)`. */
  lemma FixedPoint(a: real, d: real)
    requires d > 0.0
    ensures (a / d).Floor == 0 <==> 0.0 <= a < d
  {
    var t := a / d;
    var q := t.Floor;
    assert a == d * t;
    assert q as real <= t < q as real + 1.0;
    if 0.0 <= a < d {
      if t < 0.0 {
        MulStrict(d, t, 0.0);
        assert false;
      }
      if t >= 1.0 {
        MulMono(d, 1.0, t);
        assert false;
      }
      assert 0.0 <= t < 1.0;
      assert q == 0;
    } else if a < 0.0 {
      if t >= 0.0 {
        MulMono(d, 0.0, t);
        assert false;
      }
      assert q < 0;
    } else {
      if t < 1.0 {
        MulStrict(d, t, 1.0);
        assert false;
      }
      assert q >= 1;
    }
  }

  lemma MulMono(d: real, x: real, y: real)
    requires d > 0.0 && x <= y
    ensures d * x <= d * y
  {
    assert d * y - d * x == d * (y - x);
  }

  lemma MulStrict(d: real, x: real, y: real)
    requires d > 0.0 && x < y
    ensures d * x < d * y
  {
    assert d * y - d * x == d * (y - x);
  }

  /** Component-wise `%`, used for the world wrap test. */
  function VMod(v: Vector, w: Vector): Vector
    requires w.x != 0.0 && w.y != 0.0
  {
    Vector(Mod(v.x, w.x), Mod(v.y, w.y))
  }

  /** Subtraction undoes addition. */
  lemma AddSubInverse(v: Vector, w: Vector)
    ensures Sub(Add(v, w), w) == v
    ensures Add(Sub(v, w), w) == v
  {
  }

  /** Component-wise division undoes component-wise multiplication. */
  lemma MulDivInverse(v: Vector, w: Vector)
    requires w.x != 0.0 && w.y != 0.0
    ensures Div(Mul(v, w), w) == v
  {
  }

  /** With a positive box, `%` lands inside the box, and it leaves a vector
      unchanged exactly when both coordinates are already inside. */
  lemma VModInBox(v: Vector, w: Vector)
    requires w.x > 0.0 && w.y > 0.0
    ensures 0.0 <= VMod(v, w).x < w.x && 0.0 <= VMod(v, w).y < w.y
    ensures VMod(v, w) == v <==> (0.0 <= v.x < w.x && 0.0 <= v.y < w.y)
  {
  }
}
