/** The point field: a Fibonacci (golden-angle) spiral of points on the unit
    sphere, with a small random jitter on the horizontal coordinates. */
module Sphere {
  import opened RealMath

  datatype Point = Point(x: real, y: real, z: real)

  /** Squared Euclidean length. */
  function Norm2(p: Point): real {
    p.x * p.x + p.y * p.y + p.z * p.z
  }

  /** Width of the jitter interval. */
  const JitterSpan: real := 0.015

  /** The offset made from one `Math.random()` draw: (r - 0.5) * 0.015. */
  function Jitter(r: real): (j: real)
    ensures 0.0 <= r < 1.0 ==> -JitterSpan / 2.0 <= j < JitterSpan / 2.0
  {
    (r - 0.5) * JitterSpan
  }

  /** Height of point i of n: 1 - (i / (n - 1)) * 2, spread evenly from the
      north pole (i = 0) to the south pole (i = n - 1). */
  function Height(i: int, n: int): (y: real)
    requires n >= 2
    ensures i == 0 ==> y == 1.0
    ensures i == n - 1 ==> y == -1.0
    ensures 0 <= i < n ==> -1.0 <= y <= 1.0
  {
    var q := i as real / (n - 1) as real;
    assert q * (n - 1) as real == i as real;
    1.0 - q * 2.0
  }

  /** Heights fall strictly with the index. */
  lemma HeightStrictlyDecreasing(i: int, j: int, n: int)
    requires n >= 2 && i < j
    ensures Height(j, n) < Height(i, n)
  {
    var d := (n - 1) as real;
    var qi := i as real / d;
    var qj := j as real / d;
    assert qi * d == i as real;
    assert qj * d == j as real;
    assert (qj - qi) * d == (j - i) as real;
    assert qj - qi > 0.0;
    assert Height(i, n) == 1.0 - qi * 2.0;
    assert Height(j, n) == 1.0 - qj * 2.0;
  }

  /** `Math.PI * (3 - Math.sqrt(5))`. */
  function GoldenAngle(m: Math): real {
    m.pi * (3.0 - m.sqrt(5.0))
  }

  /** Radius of the horizontal circle at height y: sqrt(1 - y * y). */
  function Radius(m: Math, y: real): real {
    m.sqrt(1.0 - y * y)
  }

  /** Longitude of point i: i golden angles. */
  function Theta(m: Math, i: int): real {
    GoldenAngle(m) * i as real
  }

  /** Point i of n on the jitter-free spiral. */
  function Spiral(m: Math, n: int, i: int): Point
    requires n >= 2
  {
    var y := Height(i, n);
    Point(m.cos(Theta(m, i)) * Radius(m, y), y, m.sin(Theta(m, i)) * Radius(m, y))
  }

  /** Point i of n with the jitter of two random draws, `rx` for x and then
      `rz` for z; the height is left unjittered. */
  function PointAt(m: Math, n: int, i: int, rx: real, rz: real): Point
    requires n >= 2
  {
    var p := Spiral(m, n, i);
    Point(p.x + Jitter(rx), p.y, p.z + Jitter(rz))
  }

  /** `createPoints(n)`. The calls to `Math.random()` arrive as `random`, two
      per point in call order (first the x draw, then the z draw). A count of
      one would divide zero by zero in the height formula and is excluded. */
  method CreatePoints(m: Math, n: nat, random: seq<real>) returns (pts: seq<Point>)
    requires n != 1
    requires |random| == 2 * n
    requires forall k :: 0 <= k < |random| ==> 0.0 <= random[k] < 1.0
    ensures |pts| == n
    ensures forall i :: 0 <= i < n ==> pts[i] == PointAt(m, n, i, random[2 * i], random[2 * i + 1])
    ensures n >= 2 ==> pts[0].y == 1.0 && pts[n - 1].y == -1.0
    ensures forall i, j :: 0 <= i < j < n ==> pts[j].y < pts[i].y
    ensures forall i :: 0 <= i < n ==> -1.0 <= pts[i].y <= 1.0
    ensures forall i :: 0 <= i < n ==>
              && pts[i].y == Spiral(m, n, i).y
              && -JitterSpan / 2.0 <= pts[i].x - Spiral(m, n, i).x < JitterSpan / 2.0
              && -JitterSpan / 2.0 <= pts[i].z - Spiral(m, n, i).z < JitterSpan / 2.0
  {
    pts := [];
    var i := 0;
    while i < n
      invariant 0 <= i <= n
      invariant |pts| == i
      invariant forall k :: 0 <= k < i ==> pts[k] == PointAt(m, n, k, random[2 * k], random[2 * k + 1])
    {
      pts := pts + [PointAt(m, n, i, random[2 * i], random[2 * i + 1])];
      i := i + 1;
    }
    forall i, j | 0 <= i < j < n
      ensures pts[j].y < pts[i].y
    {
      HeightStrictlyDecreasing(i, j, n);
    }
  }

  /** The product of two non-negative numbers is non-negative. */
  lemma NonNegativeProduct(x: real, y: real)
    requires x >= 0.0 && y >= 0.0
    ensures x * y >= 0.0
  {
  }

  /** A product of a number in [-1, 1] and a number in [-k, k] lies in [-k, k]:
      both k - a * b and k + a * b are sums of products of non-negative factors. */
  lemma ProductBound(a: real, b: real, k: real)
    requires -1.0 <= a <= 1.0 && -k <= b <= k
    ensures -k <= a * b <= k
  {
    NonNegativeProduct(1.0 - a, k + b);
    NonNegativeProduct(1.0 + a, k - b);
    NonNegativeProduct(1.0 + a, k + b);
    NonNegativeProduct(1.0 - a, k - b);
    assert 2.0 * (k - a * b) == (1.0 - a) * (k + b) + (1.0 + a) * (k - b);
    assert 2.0 * (k + a * b) == (1.0 + a) * (k + b) + (1.0 - a) * (k - b);
  }

  /** Expanding the squared length of a jittered point on a circle of radius
      r at height y, with (c, s) on the unit circle. */
  lemma JitteredNorm(c: real, s: real, r: real, y: real, jx: real, jz: real)
    requires OnUnitCircle(c, s)
    ensures (c * r + jx) * (c * r + jx) + y * y + (s * r + jz) * (s * r + jz)
            == r * r + y * y + 2.0 * (r * (c * jx + s * jz)) + jx * jx + jz * jz
  {
    calc {
      (c * r + jx) * (c * r + jx) + y * y + (s * r + jz) * (s * r + jz);
      (c * c + s * s) * (r * r) + y * y + 2.0 * (r * (c * jx + s * jz)) + jx * jx + jz * jz;
    }
  }

  /** The cross and square terms of the jitter move the squared length by
      less than 0.0302. */
  lemma JitterEffect(c: real, s: real, r: real, jx: real, jz: real)
    requires OnUnitCircle(c, s)
    requires 0.0 <= r <= 1.0
    requires -0.0075 <= jx <= 0.0075 && -0.0075 <= jz <= 0.0075
    ensures -0.0302 <= 2.0 * (r * (c * jx + s * jz)) + jx * jx + jz * jz <= 0.0302
  {
    UnitCircleBounds(c, s);
    ProductBound(c, jx, 0.0075);
    ProductBound(s, jz, 0.0075);
    ProductBound(r, c * jx + s * jz, 0.015);
    ProductBound(jx / 0.0075, jx, 0.0075);
    ProductBound(jz / 0.0075, jz, 0.0075);
  }

  /** A point on a circle of radius r at height y, with r * r + y * y == 1,
      moved by the jitter, stays within 0.02 of the unit sphere. */
  lemma JitteredPointNearUnit(c: real, s: real, r: real, y: real, jx: real, jz: real)
    requires OnUnitCircle(c, s)
    requires 0.0 <= r <= 1.0 && r * r + y * y == 1.0
    requires -0.0075 <= jx <= 0.0075 && -0.0075 <= jz <= 0.0075
    ensures 0.98 * 0.98 <= Norm2(Point(c * r + jx, y, s * r + jz)) <= 1.02 * 1.02
  {
    var e := 2.0 * (r * (c * jx + s * jz)) + jx * jx + jz * jz;
    JitteredNorm(c, s, r, y, jx, jz);
    JitterEffect(c, s, r, jx, jz);
    assert Norm2(Point(c * r + jx, y, s * r + jz)) == 1.0 + e;
  }

  /** Every generated point lies within 0.02 of the unit sphere:
      0.98 <= |p| <= 1.02, stated on the squared length. */
  lemma NearUnitSphere(m: Math, n: int, i: int, rx: real, rz: real)
    requires Lawful(m)
    requires n >= 2 && 0 <= i < n
    requires 0.0 <= rx < 1.0 && 0.0 <= rz < 1.0
    ensures 0.98 * 0.98 <= Norm2(PointAt(m, n, i, rx, rz)) <= 1.02 * 1.02
  {
    var y := Height(i, n);
    ProductBound(y, y, 1.0);
    var r := Radius(m, y);
    assert 0.0 <= r && r * r == 1.0 - y * y;
    SquareAtMostOne(r);
    var c, s := m.cos(Theta(m, i)), m.sin(Theta(m, i));
    assert OnUnitCircle(c, s);
    assert PointAt(m, n, i, rx, rz) == Point(c * r + Jitter(rx), y, s * r + Jitter(rz));
    JitteredPointNearUnit(c, s, r, y, Jitter(rx), Jitter(rz));
  }
}
