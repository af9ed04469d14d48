/** Shared vocabulary of the visualisation model: three-component vectors,
    the constant pi, and the transcendental functions of JavaScript's `Math`
    object, which the model treats as unknown functions that obey only their
    range facts. Every `Math.random()` draw of the source is a parameter of
    the member that uses it. */
module MathModel {

  /** JavaScript's `Math.PI`, as a decimal real. */
  const Pi: real := 3.141592653589793

  /** A point or direction in three dimensions (a `THREE.Vector3` value). */
  datatype Vector3 = Vector3(x: real, y: real, z: real)

  /** A two-dimensional pointer position or velocity. */
  datatype Vector2 = Vector2(x: real, y: real)

  function Scale(v: Vector3, k: real): Vector3
  {
    Vector3(v.x * k, v.y * k, v.z * k)
  }

  /** The point at distance r with the given polar and azimuthal sines and
      cosines, `[r sin(phi) cos(theta), r sin(phi) sin(theta), r cos(phi)]`:
      no coordinate exceeds |r| in magnitude. */
  function Cartesian(r: real, sinPhi: real, cosPhi: real, sinTheta: real, cosTheta: real): (p: Vector3)
    requires -1.0 <= sinPhi <= 1.0 && -1.0 <= cosPhi <= 1.0
    requires -1.0 <= sinTheta <= 1.0 && -1.0 <= cosTheta <= 1.0
    ensures Abs(p.x) <= Abs(r) && Abs(p.y) <= Abs(r) && Abs(p.z) <= Abs(r)
  {
    var rs := r * sinPhi;
    ShrinkingFactor(r, sinPhi);
    ShrinkingFactor(rs, cosTheta);
    ShrinkingFactor(rs, sinTheta);
    ShrinkingFactor(r, cosPhi);
    assert Abs(rs) <= Abs(r);
    Vector3(rs * cosTheta, rs * sinTheta, r * cosPhi)
  }

  /** The functions of `Math` that the core calls and whose values the model
      does not compute: `sin`, `cos`, `acos`, `sqrt` and `pow`. */
  datatype MathLib = MathLib(
    sin: real -> real,
    cos: real -> real,
    acos: real -> real,
    sqrt: real -> real,
    pow: (real, real) -> real)
  {
    /** The facts the model relies on, and nothing more: the ranges of sine
        and cosine, the sign of the square root and the range of the decay
        power. `acos` is only ever fed to sine and cosine, so it needs no
        fact of its own. */
    ghost predicate Valid()
    {
      && (forall t :: -1.0 <= sin(t) <= 1.0)
      && (forall t :: -1.0 <= cos(t) <= 1.0)
      && (forall t :: 0.0 <= t ==> 0.0 <= sqrt(t))
      && (forall e :: 0.0 <= e ==> 0.0 < pow(0.95, e) <= 1.0)
    }
  }

  /** A value that may be absent (`null` in the source). */
  datatype Option<T> = None | Some(value: T)

  /** A `Math.random()` result. */
  predicate IsDraw(u: real)
  {
    0.0 <= u < 1.0
  }

  function Abs(x: real): real
  {
    if x < 0.0 then -x else x
  }

  function Max(a: real, b: real): real
  {
    if a >= b then a else b
  }

  function Min(a: real, b: real): real
  {
    if a <= b then a else b
  }

  lemma ProductNonNegative(x: real, y: real)
    requires 0.0 <= x && 0.0 <= y
    ensures 0.0 <= x * y
  {
  }

  lemma ProductPositive(x: real, y: real)
    requires 0.0 < x && 0.0 < y
    ensures 0.0 < x * y
  {
  }

  /** |b * a| <= |b| whenever |a| <= 1: a bounded factor cannot enlarge a product. */
  lemma ShrinkingFactor(b: real, a: real)
    requires -1.0 <= a <= 1.0
    ensures Abs(b * a) <= Abs(b)
  {
    var n := Abs(b);
    ProductNonNegative(n, 1.0 - a);
    ProductNonNegative(n, 1.0 + a);
    assert n * (1.0 - a) == n - n * a;
    assert n * (1.0 + a) == n + n * a;
    assert Abs(b * a) == Abs(n * a);
  }
}
