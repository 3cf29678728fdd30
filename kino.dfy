/** The part of the `kino` geometry library and of numpy's trigonometry that the
    simulator relies on: 2D points and vectors, rotation by an angle in degrees,
    magnitude, and the orientation of a vector.

    The transcendental functions are not defined here. They are bundled in a
    `Maths` value that every caller receives as a parameter, and `Lawful` states
    the only facts the proofs use about them. */
module Kino {

  /** A point or a displacement in the plane (kino's `Point` and `Vector`). */
  datatype Point = Point(x: real, y: real)

  function Add(p: Point, q: Point): Point { Point(p.x + q.x, p.y + q.y) }

  function Sub(p: Point, q: Point): Point { Point(p.x - q.x, p.y - q.y) }

  function Dot(p: Point, q: Point): real { p.x * q.x + p.y * q.y }

  /** The smaller and the larger of two reals. */
  function Min(a: real, b: real): real { if a <= b then a else b }
  function Max(a: real, b: real): real { if a <= b then b else a }

  /** Squared Euclidean length. */
  function Norm2(v: Point): real { v.x * v.x + v.y * v.y }

  /** cos and sin of an angle in DEGREES (numpy's `cos(radians(a))`), a square
      root, and kino's `Vector.angle`: the orientation of `(x, y)` in degrees. */
  datatype Maths = Maths(
    cosd: real -> real,
    sind: real -> real,
    sqrt: real -> real,
    orientation: (real, real) -> real)

  /** The trigonometric identities used at one angle. */
  ghost predicate TrigAt(m: Maths, a: real)
  {
    && m.cosd(a) * m.cosd(a) + m.sind(a) * m.sind(a) == 1.0
    && m.cosd(-a) == m.cosd(a)
    && m.sind(-a) == -m.sind(a)
  }

  /** The square root at one argument: the non-negative root. */
  ghost predicate SqrtAt(m: Maths, x: real)
  {
    0.0 <= x ==> 0.0 <= m.sqrt(x) && m.sqrt(x) * m.sqrt(x) == x
  }

  /** The laws the real cos, sin and sqrt obey. Each quantifier is instantiated
      only where a proof mentions `TrigAt` or `SqrtAt` explicitly. */
  ghost predicate Lawful(m: Maths)
  {
    && m.cosd(0.0) == 1.0
    && m.sind(0.0) == 0.0
    && (forall a {:trigger TrigAt(m, a)} :: TrigAt(m, a))
    && (forall x {:trigger SqrtAt(m, x)} :: SqrtAt(m, x))
  }

  /** kino's `Vector.rotate(deg)`: counter-clockwise rotation by `deg` degrees. */
  function Rotate(m: Maths, v: Point, deg: real): Point
  {
    Point(v.x * m.cosd(deg) - v.y * m.sind(deg), v.x * m.sind(deg) + v.y * m.cosd(deg))
  }

  /** kino's `Vector.magnitude`. */
  function Magnitude(m: Maths, v: Point): real
  {
    m.sqrt(Norm2(v))
  }

  /** A squared length is never negative. */
  lemma Norm2NonNegative(v: Point)
    ensures 0.0 <= Norm2(v)
  {
  }

  /** Negating a vector keeps its squared length. */
  lemma Norm2Negate(v: Point)
    ensures Norm2(Point(-v.x, -v.y)) == Norm2(v)
  {
  }

  lemma SqrtFacts(m: Maths, x: real)
    requires Lawful(m) && 0.0 <= x
    ensures 0.0 <= m.sqrt(x) && m.sqrt(x) * m.sqrt(x) == x
  {
    assert SqrtAt(m, x);
  }

  /** Multiplying by a non-negative factor keeps an inequality. */
  lemma MulMono(k: real, x: real, y: real)
    requires 0.0 <= k && x <= y
    ensures k * x <= k * y
  {
    assert k * y - k * x == k * (y - x);
  }

  /** Squaring is strictly monotone on non-negative numbers. */
  lemma SquareStrict(a: real, b: real)
    requires 0.0 <= a < b
    ensures a * a < b * b
  {
    var d := b - a;
    assert a * b - a * a == a * d;
    assert 0.0 <= a * d;
    assert b * b - a * b == b * d;
    assert 0.0 < b * d;
  }

  /** The root of zero is zero. */
  lemma SqrtZero(m: Maths)
    requires Lawful(m)
    ensures m.sqrt(0.0) == 0.0
  {
    SqrtFacts(m, 0.0);
    var s := m.sqrt(0.0);
    if s > 0.0 { SquareStrict(0.0, s); }
  }

  /** The root of a square of a non-negative number is that number. */
  lemma SqrtOfSquare(m: Maths, r: real)
    requires Lawful(m) && 0.0 <= r
    ensures m.sqrt(r * r) == r
  {
    var s := m.sqrt(r * r);
    SqrtFacts(m, r * r);
    if s < r {
      SquareStrict(s, r);
    } else if s > r {
      SquareStrict(r, s);
    }
  }

  /** The root is monotone, in both directions. */
  lemma SqrtMonotone(m: Maths, x: real, y: real)
    requires Lawful(m) && 0.0 <= x && 0.0 <= y
    ensures x <= y <==> m.sqrt(x) <= m.sqrt(y)
  {
    SqrtFacts(m, x);
    SqrtFacts(m, y);
    var a, b := m.sqrt(x), m.sqrt(y);
    if a < b {
      SquareStrict(a, b);
    } else if b < a {
      SquareStrict(b, a);
    }
  }

  /** Rotating by 0 degrees changes nothing. */
  lemma RotateByZero(m: Maths, v: Point)
    requires Lawful(m)
    ensures Rotate(m, v, 0.0) == v
  {
  }

  /** Rotating by `-a` undoes rotating by `a`, and the other way round. */
  lemma {:induction false} RotateInverse(m: Maths, v: Point, a: real)
    requires Lawful(m)
    ensures Rotate(m, Rotate(m, v, -a), a) == v
    ensures Rotate(m, Rotate(m, v, a), -a) == v
  {
    assert TrigAt(m, a);
    var c, s := m.cosd(a), m.sind(a);
    var w := Rotate(m, v, -a);
    assert w == Point(v.x * c + v.y * s, -v.x * s + v.y * c);
    calc {
      Rotate(m, w, a).x;
      (v.x * c + v.y * s) * c - (-v.x * s + v.y * c) * s;
      v.x * (c * c + s * s);
      v.x;
    }
    calc {
      Rotate(m, w, a).y;
      (v.x * c + v.y * s) * s + (-v.x * s + v.y * c) * c;
      v.y * (c * c + s * s);
      v.y;
    }
    var u := Rotate(m, v, a);
    calc {
      Rotate(m, u, -a).x;
      (v.x * c - v.y * s) * c + (v.x * s + v.y * c) * s;
      v.x * (c * c + s * s);
      v.x;
    }
    calc {
      Rotate(m, u, -a).y;
      -(v.x * c - v.y * s) * s + (v.x * s + v.y * c) * c;
      v.y * (c * c + s * s);
      v.y;
    }
  }

  /** Rotation preserves length. */
  lemma {:induction false} RotatePreservesNorm(m: Maths, v: Point, a: real)
    requires Lawful(m)
    ensures Norm2(Rotate(m, v, a)) == Norm2(v)
    ensures Magnitude(m, Rotate(m, v, a)) == Magnitude(m, v)
  {
    assert TrigAt(m, a);
    var c, s := m.cosd(a), m.sind(a);
    calc {
      Norm2(Rotate(m, v, a));
      (v.x * c - v.y * s) * (v.x * c - v.y * s) + (v.x * s + v.y * c) * (v.x * s + v.y * c);
      (v.x * v.x + v.y * v.y) * (c * c + s * s);
      Norm2(v);
    }
  }
}
