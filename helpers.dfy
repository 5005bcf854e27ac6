/** The arithmetic helpers of the scene: linear interpolation, the linear range
    remap used to turn a distance into an audio parameter, and the Euclidean
    distance between two positioned objects. Numbers are mathematical reals. */
module Helpers {

  /** A position in the scene (the `position` of a three.js object). */
  datatype Vec3 = Vec3(x: real, y: real, z: real)

  function Abs(x: real): (r: real)
    ensures r >= 0.0 && (r == x || r == -x)
  {
    if x < 0.0 then -x else x
  }

  /** lerp: moves from `start` towards `end` by the fraction `amt`. */
  function Lerp(start: real, end: real, amt: real): (r: real)
    ensures amt == 0.0 ==> r == start
    ensures amt == 1.0 ==> r == end
    ensures start == end ==> r == start
  {
    (1.0 - amt) * start + amt * end
  }

  /** The distance already covered is the fraction `amt` of the whole way. */
  lemma LerpCoversFraction(start: real, end: real, amt: real)
    ensures Lerp(start, end, amt) - start == amt * (end - start)
  {
  }

  /** map: the point of [outMin, outMax] at the same relative position as `num`
      in [inMin, inMax]. Nothing is clamped; an empty input range would be a
      division by zero, which the caller must avoid. */
  function Map(num: real, inMin: real, inMax: real, outMin: real, outMax: real): (r: real)
    requires inMin != inMax
    ensures num == inMin ==> r == outMin
    ensures num == inMax ==> r == outMax
  {
    ScaleQuotient(num - inMin, outMax - outMin, inMax - inMin);
    (num - inMin) * (outMax - outMin) / (inMax - inMin) + outMin
  }

  /** Moving a factor out of a quotient, and cancelling a divisor. */
  lemma ScaleQuotient(a: real, b: real, c: real)
    requires c != 0.0
    ensures a * b / c == a * (b / c)
    ensures c * (b / c) == b
  {
    var k := b / c;
    assert b == k * c;
    assert a * b == (a * k) * c;
  }

  /** Map is an affine function of `num` with slope (outMax - outMin) / (inMax - inMin). */
  lemma MapAffine(num: real, inMin: real, inMax: real, outMin: real, outMax: real)
    requires inMin != inMax
    ensures Map(num, inMin, inMax, outMin, outMax)
            == (num - inMin) * ((outMax - outMin) / (inMax - inMin)) + outMin
  {
    ScaleQuotient(num - inMin, outMax - outMin, inMax - inMin);
  }

  /** Mapping a range onto itself changes nothing. */
  lemma MapIdentity(x: real, a: real, b: real)
    requires a != b
    ensures Map(x, a, b, a, b) == x
  {
    MapAffine(x, a, b, a, b);
    assert (b - a) / (b - a) == 1.0;
  }

  /** Mapping back with the ranges swapped recovers the original number. */
  lemma MapRoundTrip(x: real, inMin: real, inMax: real, outMin: real, outMax: real)
    requires inMin != inMax && outMin != outMax
    ensures Map(Map(x, inMin, inMax, outMin, outMax), outMin, outMax, inMin, inMax) == x
  {
    var k := (outMax - outMin) / (inMax - inMin);
    var k' := (inMax - inMin) / (outMax - outMin);
    assert k * k' == 1.0 by {
      assert k * (inMax - inMin) == outMax - outMin;
      assert k' * (outMax - outMin) == inMax - inMin;
      assert k * k' * ((inMax - inMin) * (outMax - outMin)) == (inMax - inMin) * (outMax - outMin);
    }
    var y := Map(x, inMin, inMax, outMin, outMax);
    MapAffine(x, inMin, inMax, outMin, outMax);
    MapAffine(y, outMin, outMax, inMin, inMax);
    assert y - outMin == (x - inMin) * k;
    assert (y - outMin) * k' == (x - inMin) * (k * k');
  }

  /** With increasing ranges, a larger input never maps to a smaller output. */
  lemma MapMonotone(n1: real, n2: real, inMin: real, inMax: real, outMin: real, outMax: real)
    requires inMin < inMax && outMin <= outMax && n1 <= n2
    ensures Map(n1, inMin, inMax, outMin, outMax) <= Map(n2, inMin, inMax, outMin, outMax)
  {
    var k := (outMax - outMin) / (inMax - inMin);
    assert k >= 0.0;
    calc {
      Map(n2, inMin, inMax, outMin, outMax);
    == { MapAffine(n2, inMin, inMax, outMin, outMax); }
      (n2 - inMin) * k + outMin;
    == { assert (n2 - inMin) * k == (n1 - inMin) * k + k * (n2 - n1); }
      (n1 - inMin) * k + k * (n2 - n1) + outMin;
    >= { MultiplyBelow(k, 0.0, n2 - n1); }
      (n1 - inMin) * k + outMin;
    == { MapAffine(n1, inMin, inMax, outMin, outMax); }
      Map(n1, inMin, inMax, outMin, outMax);
    }
  }

  /** Inside the half-open input range the output stays in the half-open output range. */
  lemma MapWithin(num: real, inMin: real, inMax: real, outMin: real, outMax: real)
    requires inMin <= num < inMax && outMin < outMax
    ensures outMin <= Map(num, inMin, inMax, outMin, outMax) < outMax
  {
    var k := (outMax - outMin) / (inMax - inMin);
    assert k > 0.0;
    MapAffine(num, inMin, inMax, outMin, outMax);
    assert (num - inMin) * k >= 0.0;
    assert (num - inMin) * k < (inMax - inMin) * k;
    assert (inMax - inMin) * k == outMax - outMin;
  }

  /** Map is not clamped: inputs beyond either end of the input range land
      beyond the same end of the output range. */
  lemma MapUnclamped(num: real, inMin: real, inMax: real, outMin: real, outMax: real)
    requires inMin < inMax && outMin < outMax
    ensures num < inMin ==> Map(num, inMin, inMax, outMin, outMax) < outMin
    ensures num > inMax ==> Map(num, inMin, inMax, outMin, outMax) > outMax
  {
    var k := (outMax - outMin) / (inMax - inMin);
    assert k > 0.0;
    MapAffine(num, inMin, inMax, outMin, outMax);
    var r := Map(num, inMin, inMax, outMin, outMax);
    assert r == (num - inMin) * k + outMin;
    assert (inMax - inMin) * k == outMax - outMin;
    if num < inMin {
      assert (num - inMin) * k < 0.0;
    }
    if num > inMax {
      assert (num - inMax) * k > 0.0;
      assert (num - inMin) * k == (num - inMax) * k + (inMax - inMin) * k;
    }
  }

  /** The square of the Euclidean distance between two positions. */
  function SquaredDistance(p: Vec3, q: Vec3): (r: real)
    ensures r >= 0.0
  {
    var dx := p.x - q.x;
    var dy := p.y - q.y;
    var dz := p.z - q.z;
    dx * dx + dy * dy + dz * dz
  }

  /** `r` is the (non-negative) square root of `x`. */
  predicate IsSqrt(x: real, r: real)
  {
    r >= 0.0 && r * r == x
  }

  /** getDistance: `d` is the Euclidean distance between `p` and `q`. */
  predicate IsDistance(p: Vec3, q: Vec3, d: real)
  {
    IsSqrt(SquaredDistance(p, q), d)
  }

  /** A number has at most one non-negative square root. */
  lemma SqrtUnique(x: real, r1: real, r2: real)
    requires IsSqrt(x, r1) && IsSqrt(x, r2)
    ensures r1 == r2
  {
    assert (r1 - r2) * (r1 + r2) == r1 * r1 - r2 * r2;
    ProductZero(r1 - r2, r1 + r2);
  }

  /** Multiplying by a non-negative (or positive) factor keeps an ordering. */
  lemma MultiplyBelow(k: real, a: real, b: real)
    requires k >= 0.0 && a <= b
    ensures k * a <= k * b
    ensures k > 0.0 && a < b ==> k * a < k * b
  {
    assert k * b - k * a == k * (b - a);
  }

  /** The size of a product is the product of the sizes. */
  lemma AbsProduct(a: real, b: real)
    ensures Abs(a * b) == Abs(a) * Abs(b)
  {
    if a < 0.0 && b < 0.0 {
      assert a * b == (-a) * (-b);
    } else if a < 0.0 {
      assert a * b == -((-a) * b);
      MultiplyBelow(-a, 0.0, b);
    } else if b < 0.0 {
      assert a * b == -(a * (-b));
      MultiplyBelow(a, 0.0, -b);
    } else {
      MultiplyBelow(a, 0.0, b);
    }
  }

  /** A non-zero common factor cancels. */
  lemma CancelFactor(a: real, b: real, c: real)
    requires c != 0.0 && a * c == b * c
    ensures a == b
  {
    assert (a - b) * c == a * c - b * c;
    ProductZero(a - b, c);
  }

  lemma ProductZero(a: real, b: real)
    requires a * b == 0.0
    ensures a == 0.0 || b == 0.0
  {
  }

  /** Comparing a distance with a radius is comparing the squared distance with
      the squared radius, so no square root is needed to decide it. */
  lemma DistanceBelow(p: Vec3, q: Vec3, d: real, radius: real)
    requires IsDistance(p, q, d) && radius >= 0.0
    ensures d < radius <==> SquaredDistance(p, q) < radius * radius
  {
    assert SquaredDistance(p, q) == d * d;
    SquareMonotone(d, radius);
  }

  /** Squaring is strictly increasing on the non-negative reals. */
  lemma SquareMonotone(a: real, b: real)
    requires a >= 0.0 && b >= 0.0
    ensures a < b <==> a * a < b * b
  {
    if a < b {
      calc {
        a * a;
      <= { MultiplyBelow(a, a, b); }
        a * b;
      < { MultiplyBelow(b, a, b); }
        b * b;
      }
    } else {
      MultiplyBelow(a, b, a);
      MultiplyBelow(b, b, a);
    }
  }

  /** getDistance is non-negative, symmetric, and zero exactly for equal positions. */
  lemma DistanceProperties(p: Vec3, q: Vec3, d: real)
    requires IsDistance(p, q, d)
    ensures d >= 0.0
    ensures IsDistance(q, p, d)
    ensures d == 0.0 <==> p == q
  {
    assert SquaredDistance(q, p) == SquaredDistance(p, q);
    var dx, dy, dz := p.x - q.x, p.y - q.y, p.z - q.z;
    assert dx * dx >= 0.0 && dy * dy >= 0.0 && dz * dz >= 0.0;
    if d == 0.0 {
      assert dx * dx == 0.0 && dy * dy == 0.0 && dz * dz == 0.0;
      ProductZero(dx, dx);
      ProductZero(dy, dy);
      ProductZero(dz, dz);
      assert p == Vec3(q.x, q.y, q.z);
    }
    if p == q {
      ProductZero(d, d);
    }
  }

  /** Within a radius of a point, every coordinate is within that radius too. */
  lemma CoordinatesWithin(p: Vec3, q: Vec3, d: real, radius: real)
    requires IsDistance(p, q, d) && d < radius
    ensures Abs(p.x - q.x) < radius && Abs(p.y - q.y) < radius && Abs(p.z - q.z) < radius
  {
    DistanceBelow(p, q, d, radius);
    var dx, dy, dz := p.x - q.x, p.y - q.y, p.z - q.z;
    assert dx * dx >= 0.0 && dy * dy >= 0.0 && dz * dz >= 0.0;
    assert SquaredDistance(p, q) == dx * dx + dy * dy + dz * dz;
    SquareBelow(dx, radius);
    SquareBelow(dy, radius);
    SquareBelow(dz, radius);
  }

  lemma SquareBelow(v: real, radius: real)
    requires radius >= 0.0 && v * v < radius * radius
    ensures Abs(v) < radius
  {
    var a := Abs(v);
    if v < 0.0 {
      assert a * a == (-v) * (-v) == v * v;
    }
    SquareMonotone(a, radius);
  }
}
