/** What the simulation asks of the Gosu library, and Ruby's rounding.
    Gosu's trigonometry works on floating point and lies outside the model:
    its four helpers are supplied by the caller as total functions, and every
    contract below is stated in terms of whatever values they return. */
module Geometry {
  import opened Vectors

  /** The Gosu helpers the core calls, with angles in degrees:
      - offset(a, len) is the vector (Gosu::offset_x(a, len), Gosu::offset_y(a, len));
      - angle(p, q) is Gosu::angle from point p to point q;
      - distance(p, q) is Gosu::distance between p and q;
      - angleDiff(a, b) is Gosu::angle_diff(a, b), the signed turn from a to b. */
  datatype Gosu = Gosu(
    offset: (real, real) -> Vector,
    angle: (Vector, Vector) -> real,
    distance: (Vector, Vector) -> real,
    angleDiff: (real, real) -> real)

  /** Ruby's Float#round: the nearest integer, ties rounded away from zero. */
  function Round(r: real): (n: int)
    ensures r >= 0.0 ==> -0.5 <= r - n as real < 0.5
    ensures r < 0.0 ==> -0.5 < r - n as real <= 0.5
  {
    if r >= 0.0 then (r + 0.5).Floor else -((-r + 0.5).Floor)
  }

  /** Rounding a whole number gives it back. */
  lemma RoundWhole(k: int)
    ensures Round(k as real) == k
  {
  }
}
