/** Vectors of real coordinates. A square root is never computed here: where the program takes
    one, the model is handed the root and the fact that its square is the number under it. */
module Vectors {

  datatype Vec3 = Vec3(x: real, y: real, z: real)

  datatype Bounds = Bounds(minX: real, maxX: real, minY: real, maxY: real, minZ: real, maxZ: real)

  const ORIGIN := Vec3(0.0, 0.0, 0.0)
  const WORLD_BOUNDS := Bounds(-100.0, 100.0, 0.0, 50.0, -100.0, 100.0)

  function Dot(a: Vec3, b: Vec3): real {
    a.x * b.x + a.y * b.y + a.z * b.z
  }

  function Square(a: real): real {
    a * a
  }

  function DistanceSquared(a: Vec3, b: Vec3): real {
    Square(a.x - b.x) + Square(a.y - b.y) + Square(a.z - b.z)
  }

  function Minus(a: Vec3, b: Vec3): Vec3 {
    Vec3(a.x - b.x, a.y - b.y, a.z - b.z)
  }

  function Plus(a: Vec3, b: Vec3): Vec3 {
    Vec3(a.x + b.x, a.y + b.y, a.z + b.z)
  }

  function Scale(v: Vec3, k: real): Vec3 {
    Vec3(v.x * k, v.y * k, v.z * k)
  }

  function Min(a: real, b: real): real {
    if a <= b then a else b
  }

  function Max(a: real, b: real): real {
    if a >= b then a else b
  }

  /** `m` is the number `magnitude(v)` returns. */
  predicate IsMagnitude(m: real, v: Vec3) {
    m >= 0.0 && m * m == Dot(v, v)
  }

  /** `d` is the number `distance3(a, b)` returns. */
  predicate IsDistance(d: real, a: Vec3, b: Vec3) {
    IsMagnitude(d, Minus(a, b))
  }

  /** The distance from `a` to `b` is at most `r`, said without a root. */
  predicate Within(a: Vec3, b: Vec3, r: real) {
    r >= 0.0 && DistanceSquared(a, b) <= r * r
  }

  predicate InBox(v: Vec3, b: Bounds) {
    && b.minX <= v.x <= b.maxX
    && b.minY <= v.y <= b.maxY
    && b.minZ <= v.z <= b.maxZ
  }

  function Clamp(a: real, lo: real, hi: real): real {
    Min(hi, Max(lo, a))
  }

  function ClampVec3(v: Vec3, b: Bounds): Vec3 {
    Vec3(Clamp(v.x, b.minX, b.maxX), Clamp(v.y, b.minY, b.maxY), Clamp(v.z, b.minZ, b.maxZ))
  }

  lemma ProductMonotone(a: real, b: real, c: real, d: real)
    requires 0.0 <= a <= c && 0.0 <= b <= d
    ensures a * b <= c * d
  {
    assert a * b <= a * d <= c * d;
  }

  lemma SquareMonotone(a: real, b: real)
    requires 0.0 <= a && 0.0 <= b
    ensures a <= b <==> a * a <= b * b
  {
    if a <= b {
      ProductMonotone(a, a, b, b);
    } else {
      var d := a - b;
      assert a * a == b * b + 2.0 * (b * d) + d * d;
      assert b * d >= 0.0 && d * d > 0.0;
    }
  }

  /** A vector has only one magnitude. */
  lemma MagnitudeUnique(m: real, n: real, v: Vec3)
    requires IsMagnitude(m, v) && IsMagnitude(n, v)
    ensures m == n
  {
    SquareMonotone(m, n);
    SquareMonotone(n, m);
  }

  lemma ScaleMagnitude(m: real, v: Vec3, k: real)
    requires IsMagnitude(m, v) && k >= 0.0
    ensures IsMagnitude(m * k, Scale(v, k))
  {
    calc {
      (m * k) * (m * k);
      (m * m) * (k * k);
      Dot(v, v) * (k * k);
      { ScaledDot(v, k); }
      Dot(Scale(v, k), Scale(v, k));
    }
    assert m * k >= 0.0;
  }

  lemma ScaledDot(v: Vec3, k: real)
    ensures Dot(Scale(v, k), Scale(v, k)) == Dot(v, v) * (k * k)
  {
    assert (v.x * k) * (v.x * k) == (v.x * v.x) * (k * k);
    assert (v.y * k) * (v.y * k) == (v.y * v.y) * (k * k);
    assert (v.z * k) * (v.z * k) == (v.z * v.z) * (k * k);
  }

  lemma SquareEven(a: real)
    ensures Square(a) == Square(-a)
  {
  }

  lemma SquareZero(a: real)
    ensures Square(a) >= 0.0
    ensures Square(a) == 0.0 ==> a == 0.0
  {
    if a > 0.0 {
      SquareMonotone(a, 0.0);
    } else {
      SquareEven(a);
      SquareMonotone(-a, 0.0);
    }
  }

  lemma Swap(a: real, b: real, c: real, d: real)
    ensures (a * b) * (c * d) == (a * c) * (b * d)
  {
    calc {
      (a * b) * (c * d);
      a * (b * (c * d));
      a * (c * (b * d));
      (a * c) * (b * d);
    }
  }

  /** One component of the cross product, squared. */
  lemma CrossSquare(a: real, b: real, c: real, d: real)
    ensures 2.0 * ((a * c) * (b * d)) <= (a * a) * (d * d) + (b * b) * (c * c)
  {
    var p, q := a * d, b * c;
    SquareZero(p - q);
    assert Square(p - q) == p * p - 2.0 * (p * q) + q * q;
    Swap(a, a, d, d);
    Swap(b, b, c, c);
    Swap(a, d, c, b);
  }

  lemma SquareOfThree(a: real, b: real, c: real)
    ensures (a + b + c) * (a + b + c) == a * a + b * b + c * c + 2.0 * (a * b) + 2.0 * (b * c) + 2.0 * (a * c)
  {
  }

  lemma ProductOfThree(a: real, b: real, c: real, d: real, e: real, f: real)
    ensures (a + b + c) * (d + e + f) == a * d + b * e + c * f + (a * e + b * d) + (b * f + c * e) + (a * f + c * d)
  {
  }

  lemma CauchySchwarz(u: Vec3, w: Vec3)
    ensures Dot(u, w) * Dot(u, w) <= Dot(u, u) * Dot(w, w)
  {
    SquareOfThree(u.x * w.x, u.y * w.y, u.z * w.z);
    ProductOfThree(u.x * u.x, u.y * u.y, u.z * u.z, w.x * w.x, w.y * w.y, w.z * w.z);
    Swap(u.x, u.x, w.x, w.x);
    Swap(u.y, u.y, w.y, w.y);
    Swap(u.z, u.z, w.z, w.z);
    CrossSquare(u.x, u.y, w.x, w.y);
    CrossSquare(u.y, u.z, w.y, w.z);
    CrossSquare(u.x, u.z, w.x, w.z);
  }

  lemma SumOfSquares(u: Vec3, w: Vec3, s: Vec3)
    requires s == Vec3(u.x + w.x, u.y + w.y, u.z + w.z)
    ensures Dot(s, s) == Dot(u, u) + 2.0 * Dot(u, w) + Dot(w, w)
  {
  }

  lemma DistanceIsNorm(a: Vec3, b: Vec3)
    ensures DistanceSquared(a, b) == Dot(Minus(a, b), Minus(a, b)) >= 0.0
  {
    SquareZero(a.x - b.x);
    SquareZero(a.y - b.y);
    SquareZero(a.z - b.z);
  }

  /** Within is the bound on the true distance, whenever that root exists. */
  lemma WithinBoundsDistance(d: real, a: Vec3, b: Vec3, r: real)
    requires IsDistance(d, a, b) && r >= 0.0
    ensures Within(a, b, r) <==> d <= r
  {
    DistanceIsNorm(a, b);
    SquareMonotone(d, r);
  }

  lemma CrossTermBound(uu: real, ww: real, uw: real, r: real, s: real)
    requires 0.0 <= uu <= r * r && 0.0 <= ww <= s * s && uw * uw <= uu * ww
    requires 0.0 <= r && 0.0 <= s
    ensures uw <= r * s
  {
    ProductMonotone(uu, ww, r * r, s * s);
    assert (r * r) * (s * s) == (r * s) * (r * s);
    assert 0.0 <= r * s;
    if uw > 0.0 {
      SquareMonotone(uw, r * s);
    }
  }

  lemma SquareOfSum(r: real, s: real)
    ensures (r + s) * (r + s) == r * r + 2.0 * (r * s) + s * s
  {
  }

  lemma DistanceImpliesWithin(d: real, a: Vec3, b: Vec3, r: real)
    requires IsDistance(d, a, b) && d <= r
    ensures Within(a, b, r)
  {
    WithinBoundsDistance(d, a, b, r);
  }

  lemma PlusMinus(a: Vec3, b: Vec3)
    ensures Minus(Plus(a, b), a) == b
  {
  }

  /** The triangle inequality. */
  lemma Triangle(a: Vec3, b: Vec3, c: Vec3, r: real, s: real)
    requires Within(a, b, r) && Within(b, c, s)
    ensures Within(a, c, r + s)
  {
    DistanceIsNorm(a, b);
    DistanceIsNorm(b, c);
    DistanceIsNorm(a, c);
    TriangleOfNorms(Minus(a, b), Minus(b, c), Minus(a, c), r, s);
  }

  lemma TriangleOfNorms(u: Vec3, w: Vec3, v: Vec3, r: real, s: real)
    requires v == Vec3(u.x + w.x, u.y + w.y, u.z + w.z)
    requires 0.0 <= Dot(u, u) <= r * r && 0.0 <= Dot(w, w) <= s * s && 0.0 <= r && 0.0 <= s
    ensures Dot(v, v) <= (r + s) * (r + s)
  {
    SumOfSquares(u, w, v);
    CauchySchwarz(u, w);
    TriangleCore(Dot(u, u), Dot(w, w), Dot(u, w), r, s);
  }

  lemma TriangleCore(uu: real, ww: real, uw: real, r: real, s: real)
    requires 0.0 <= uu <= r * r && 0.0 <= ww <= s * s && uw * uw <= uu * ww
    requires 0.0 <= r && 0.0 <= s
    ensures uu + 2.0 * uw + ww <= (r + s) * (r + s)
  {
    CrossTermBound(uu, ww, uw, r, s);
    SquareOfSum(r, s);
  }

  /** One coordinate: clamping stays no further from `q`, and moves `a` no further than `q` is. */
  lemma ClampCoordinate(a: real, q: real, lo: real, hi: real, c: real)
    requires lo <= q <= hi && c == Clamp(a, lo, hi)
    ensures Square(q - c) <= Square(q - a)
    ensures Square(c - a) <= Square(q - a)
    ensures Square(c - a) == Square(q - a) ==> c == q
  {
    SquareEven(q - c);
    SquareEven(c - a);
    SquareEven(q - a);
    if a < lo {
      SquareMonotone(q - c, q - a);
      SquareMonotone(c - a, q - a);
      SquareMonotone(q - a, c - a);
    } else if hi < a {
      SquareMonotone(c - q, a - q);
      SquareMonotone(a - c, a - q);
      SquareMonotone(a - q, a - c);
    } else {
      SquareZero(q - a);
    }
  }

  /** Three coordinates, each no further than its counterpart. */
  lemma SumMonotone(a: Vec3, b: Vec3, c: Vec3, d: Vec3)
    requires Square(a.x - b.x) <= Square(c.x - d.x)
    requires Square(a.y - b.y) <= Square(c.y - d.y)
    requires Square(a.z - b.z) <= Square(c.z - d.z)
    ensures DistanceSquared(a, b) <= DistanceSquared(c, d)
    ensures DistanceSquared(a, b) == DistanceSquared(c, d) ==>
              && Square(a.x - b.x) == Square(c.x - d.x)
              && Square(a.y - b.y) == Square(c.y - d.y)
              && Square(a.z - b.z) == Square(c.z - d.z)
  {
  }

  /** Clamping finds the one point of the box that is nearest. */
  lemma ClampIsProjection(v: Vec3, q: Vec3, b: Bounds, c: Vec3)
    requires InBox(q, b) && c == ClampVec3(v, b)
    ensures InBox(c, b)
    ensures InBox(v, b) ==> c == v
    ensures DistanceSquared(c, v) <= DistanceSquared(q, v)
    ensures DistanceSquared(c, v) == DistanceSquared(q, v) ==> q == c
  {
    ClampCoordinate(v.x, q.x, b.minX, b.maxX, c.x);
    ClampCoordinate(v.y, q.y, b.minY, b.maxY, c.y);
    ClampCoordinate(v.z, q.z, b.minZ, b.maxZ, c.z);
    SumMonotone(c, v, q, v);
  }

  /** Clamping never takes a point further from a point of the box. */
  lemma ClampNonExpansive(v: Vec3, q: Vec3, b: Bounds, c: Vec3)
    requires InBox(q, b) && c == ClampVec3(v, b)
    ensures DistanceSquared(q, c) <= DistanceSquared(q, v)
  {
    ClampCoordinate(v.x, q.x, b.minX, b.maxX, c.x);
    ClampCoordinate(v.y, q.y, b.minY, b.maxY, c.y);
    ClampCoordinate(v.z, q.z, b.minZ, b.maxZ, c.z);
    SumMonotone(q, c, q, v);
  }
}
