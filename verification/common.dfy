/** Shared vocabulary of the editor model: optional values, 3D vectors,
    object transforms, real rounding as JavaScript's Math.floor/Math.ceil,
    and the contract of the square-root oracle that stands in for Math.sqrt. */
module Common {

  datatype Option<+T> = None | Some(value: T)

  /** A three.js Vector3 (also used for Euler rotations, whose order is fixed). */
  datatype Vec3 = Vec3(x: real, y: real, z: real)

  /** Position, rotation and scale of a scene object. */
  datatype Transform = Transform(position: Vec3, rotation: Vec3, scale: Vec3)

  function Min(a: real, b: real): (r: real)
    ensures r <= a && r <= b && (r == a || r == b)
  {
    if a <= b then a else b
  }

  function Max(a: real, b: real): (r: real)
    ensures r >= a && r >= b && (r == a || r == b)
  {
    if a >= b then a else b
  }

  /** Math.floor on a real. */
  function Floor(r: real): (n: int)
    ensures n as real <= r < n as real + 1.0
  {
    r.Floor
  }

  /** Math.ceil on a real. */
  function Ceil(r: real): (n: int)
    ensures n as real - 1.0 < r <= n as real
  {
    -((-r).Floor)
  }

  lemma FloorLeCeil(a: real, b: real)
    requires a <= b
    ensures Floor(a) <= Ceil(b)
  {
  }

  function Sq(a: real): real { a * a }

  /** What the model assumes of Math.sqrt: on a non-negative argument it
      returns the non-negative root. */
  ghost predicate IsSqrt(sqrt: real -> real)
  {
    forall v :: 0.0 <= v ==> 0.0 <= sqrt(v) && sqrt(v) * sqrt(v) == v
  }

  /** Squaring is strictly monotone on the non-negative reals. */
  lemma SquareStrict(a: real, b: real)
    requires 0.0 <= a < b
    ensures a * a < b * b
  {
    var ab := a * b;
    assert a * a <= ab;
    assert ab < b * b;
  }

  /** The root of zero is zero. */
  lemma SqrtZero(sqrt: real -> real)
    requires IsSqrt(sqrt)
    ensures sqrt(0.0) == 0.0
  {
    var s := sqrt(0.0);
    assert 0.0 <= s && s * s == 0.0;
    if s != 0.0 {
      SquareStrict(0.0, s);
      assert false;
    }
  }

  /** A root bounds each of the squared terms under it: |a| <= sqrt(a^2 + b). */
  lemma SqrtDominates(sqrt: real -> real, a: real, b: real)
    requires IsSqrt(sqrt)
    requires 0.0 <= b
    ensures a <= sqrt(Sq(a) + b) && -a <= sqrt(Sq(a) + b)
  {
    var v := Sq(a) + b;
    var s := sqrt(v);
    assert 0.0 <= s && s * s == v;
    if a > s {
      SquareStrict(s, a);
      assert false;
    }
    if -a > s {
      SquareStrict(s, -a);
      assert false;
    }
  }
}
