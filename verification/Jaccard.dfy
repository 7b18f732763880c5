/** Jaccard distance between finite sets, as a rational, and its triangle inequality. */
module Jaccard {
  import opened Arithmetic

  function Distance<T(==)>(a: set<T>, b: set<T>): (d: real)
    ensures 0.0 <= d <= 1.0
    ensures d == 0.0 <==> a == b
  {
    if a + b == {} then 0.0
    else
      SharedIsPart(a, b);
      Complement(|a * b| as real, |a + b| as real);
      1.0 - (|a * b| as real / |a + b| as real)
  }

  lemma SharedIsPart<T>(a: set<T>, b: set<T>)
    requires a + b != {}
    ensures 0 <= |a * b| <= |a + b| && |a + b| > 0
    ensures |a * b| == |a + b| <==> a == b
  {
    Sizes(a, b);
    if |a * b| == |a + b| { EmptyDifferences(a, b); }
  }

  lemma EmptyDifferences<T>(a: set<T>, b: set<T>)
    requires |a - b| == 0 && |b - a| == 0
    ensures a == b
  {
    assert a - b == {} && b - a == {};
    forall x ensures x in a <==> x in b {
      assert x !in a - b && x !in b - a;
    }
  }

  lemma Sizes<T>(a: set<T>, b: set<T>)
    ensures |a + b| == |a * b| + |a - b| + |b - a|
  {
    assert a + b == (a * b) + (a - b) + (b - a);
    assert (a * b) !! (a - b);
    assert ((a * b) + (a - b)) !! (b - a);
  }

  lemma Complement(x: real, y: real)
    requires 0.0 <= x <= y && y > 0.0
    ensures 0.0 <= x / y <= 1.0
    ensures x / y == 1.0 <==> x == y
  {
    assert (x / y) * y == x;
  }

  lemma Symmetric<T>(a: set<T>, b: set<T>)
    ensures Distance(a, b) == Distance(b, a)
  {
    assert a + b == b + a && a * b == b * a;
  }

  /** How many elements only one of the two sets has. */
  function Differing<T>(a: set<T>, b: set<T>): nat {
    |a - b| + |b - a|
  }

  lemma DistanceIsShare<T>(a: set<T>, b: set<T>)
    requires a + b != {}
    ensures Distance(a, b) == Differing(a, b) as real / |a + b| as real
    ensures Differing(a, b) <= |a + b| && |a + b| > 0
  {
    Sizes(a, b);
    SharedIsPart(a, b);
    OneMinus(|a * b| as real, Differing(a, b) as real, |a + b| as real);
  }

  lemma ZeroFactor(x: real, u: real)
    requires u > 0.0 && x * u == 0.0
    ensures x == 0.0
  {
  }

  lemma OneMinus(s: real, d: real, u: real)
    requires u > 0.0 && s + d == u
    ensures 1.0 - s / u == d / u
  {
    var q, r := s / u, d / u;
    assert q * u == s && r * u == d;
    assert (q + r - 1.0) * u == 0.0;
    ZeroFactor(q + r - 1.0, u);
  }

  lemma WiderShare(x: real, y: real, e: real)
    requires 0.0 <= x <= y && y > 0.0 && e >= 0.0
    ensures x / y <= (x + e) / (y + e)
  {
    assert x * e <= y * e;
    assert (x / y) * y == x;
    var q := x / y;
    assert q <= 1.0;
    assert q * (y + e) <= x + e by { assert q * e <= e; }
    QuotientAtLeast(q, x + e, y + e);
  }

  lemma QuotientAtLeast(q: real, n: real, d: real)
    requires d > 0.0 && q * d <= n
    ensures q <= n / d
  {
    assert (n / d) * d == n;
    assert (n / d - q) * d >= 0.0;
  }

  lemma NarrowerShare(x: real, y: real, u: real)
    requires 0.0 <= x && 0.0 < y <= u
    ensures x / u <= x / y
  {
    var q := x / u;
    assert q * u == x;
    assert q >= 0.0 by { QuotientAtLeast(0.0, x, u); }
    assert q * y <= x by { assert q * (u - y) >= 0.0; }
    QuotientAtLeast(q, x, y);
  }

  /** Elements that differ between a and c differ between a and b or between b and c; those
      that only b has differ in both. */
  lemma DifferingAddUp<T>(a: set<T>, b: set<T>, c: set<T>)
    ensures Differing(a, c) + |b - (a + c)| <= Differing(a, b) + Differing(b, c)
  {
    Pieces(a, b, c);
    Pieces(c, b, a);
    assert b - (a + c) == b - (c + a);
    assert a - c <= (a - b) + (b - c);
  }

  lemma Pieces<T>(a: set<T>, b: set<T>, c: set<T>)
    ensures |a - c| <= |a - b| + |(b - c) * a|
    ensures |b - a| == |(b - a) * c| + |b - (a + c)|
    ensures |b - c| == |(b - c) * a| + |b - (a + c)|
  {
    assert a - c == (a - b - c) + (b - c) * a;
    assert (a - b - c) !! (b - c) * a;
    SubsetSize(a - b - c, a - b);
    assert b - a == (b - a) * c + (b - (a + c));
    assert (b - a) * c !! b - (a + c);
    assert b - c == (b - c) * a + (b - (a + c));
    assert (b - c) * a !! b - (a + c);
  }

  lemma UnionGrows<T>(a: set<T>, b: set<T>, c: set<T>)
    ensures |a + b + c| == |a + c| + |b - (a + c)|
    ensures |a + b| <= |a + b + c| && |b + c| <= |a + b + c|
  {
    assert a + b + c == (a + c) + (b - (a + c));
    assert (a + c) !! (b - (a + c));
    SubsetSize(a + b, a + b + c);
    SubsetSize(b + c, a + b + c);
  }

  /** The triangle inequality. */
  lemma Triangle<T>(a: set<T>, b: set<T>, c: set<T>)
    ensures Distance(a, c) <= Distance(a, b) + Distance(b, c)
  {
    if a + b == {} || b + c == {} || a + c == {} {
      if a + b == {} { assert a == b; }
      if b + c == {} { assert b == c; }
    } else {
      DistanceIsShare(a, b);
      DistanceIsShare(b, c);
      DistanceIsShare(a, c);
      DifferingAddUp(a, b, c);
      UnionGrows(a, b, c);
      Shares(Differing(a, c) as real, |a + c| as real, |b - (a + c)| as real,
             Differing(a, b) as real, |a + b| as real, Differing(b, c) as real, |b + c| as real);
    }
  }

  lemma Shares(ac: real, u: real, e: real, ab: real, v: real, bc: real, w: real)
    requires 0.0 <= ac <= u && 0.0 < u && 0.0 <= e && 0.0 <= ab && 0.0 <= bc
    requires ac + e <= ab + bc && 0.0 < v <= u + e && 0.0 < w <= u + e
    ensures ac / u <= ab / v + bc / w
  {
    WiderShare(ac, u, e);
    NarrowerShare(ab, v, u + e);
    NarrowerShare(bc, w, u + e);
    SumShare(ac + e, ab, bc, u + e);
  }

  lemma SumShare(x: real, y: real, z: real, u: real)
    requires u > 0.0 && x <= y + z
    ensures x / u <= y / u + z / u
  {
    assert (y / u + z / u) * u == y + z;
    var r := y / u + z / u;
    assert (x / u) * u == x;
    assert (r - x / u) * u >= 0.0;
  }
}
