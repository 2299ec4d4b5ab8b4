/** The two geometry helpers of the avatar rig: an angle by the law of cosines and a
    depth-weighted 3D distance. Square root and arc cosine are not definable here, so they
    are supplied by the caller as a `Maths` value; `Exact` says when they behave as the
    real functions do. */
module ThreeMath {

  datatype Point2 = Point2(x: real, y: real)
  datatype Point3 = Point3(x: real, y: real, z: real)

  /** The two transcendental functions the helpers call (`Math.sqrt`, `Math.acos`). */
  datatype Maths = Maths(sqrt: real -> real, acos: real -> real)

  /** sqrt is the non-negative square root; acos vanishes at 1 and is positive on the rest
      of its domain [-1, 1). */
  ghost predicate Exact(m: Maths)
  {
    (forall v :: 0.0 <= v ==> 0.0 <= m.sqrt(v) && m.sqrt(v) * m.sqrt(v) == v) &&
    (forall c :: -1.0 <= c < 1.0 ==> 0.0 < m.acos(c)) &&
    m.acos(1.0) == 0.0
  }

  /** Divisor applied to the depth difference before squaring. */
  const DepthAnisotropy: real := 1.65

  function Sq(v: real): real { v * v }

  function Abs(v: real): real { if v < 0.0 then -v else v }

  /** Plain 2D Euclidean length of the segment from a to b. */
  function Segment(a: Point2, b: Point2, m: Maths): real
  {
    m.sqrt(Sq(a.x - b.x) + Sq(a.y - b.y))
  }

  /** The angle at pointA of triangle (pointA, pointB, pointC). */
  function GetRadian2D(pointA: Point2, pointB: Point2, pointC: Point2, m: Maths): real
  {
    var segAB := Segment(pointA, pointB, m);
    var segAC := Segment(pointA, pointC, m);
    var segBC := Segment(pointB, pointC, m);
    AngleFromSides(segAB, segAC, segBC, m.acos)
  }

  /** The angle opposite side bc by the law of cosines. A zero denominator gives 0/0 (NaN)
      in the source and an argument outside [-1, 1] makes acos NaN; `|| 0` turns both into 0. */
  function AngleFromSides(ab: real, ac: real, bc: real, acos: real -> real): real
  {
    if 2.0 * ab * ac == 0.0 then 0.0
    else
      var arg := CosineArg(ab, ac, bc);
      if -1.0 <= arg <= 1.0 then acos(arg) else 0.0
  }

  /** The law-of-cosines quotient (AB^2 + AC^2 - BC^2) / (2 AB AC) that AngleFromSides
      hands to acos when its denominator is non-zero. */
  function CosineArg(ab: real, ac: real, bc: real): real
    requires 2.0 * ab * ac != 0.0
  {
    (Sq(ab) + Sq(ac) - Sq(bc)) / (2.0 * ab * ac)
  }

  /** The sum under the square root of getDistance3D. */
  function SquaredDistance3D(pointA: Point3, pointB: Point3): real
  {
    Sq(pointA.x - pointB.x) + Sq(pointA.y - pointB.y) + Sq((pointA.z - pointB.z) / DepthAnisotropy)
  }

  function GetDistance3D(pointA: Point3, pointB: Point3, m: Maths): real
  {
    m.sqrt(SquaredDistance3D(pointA, pointB))
  }

  // ---------------------------------------------------------------------------
  // Facts about non-negative square roots

  lemma ProductPositive(u: real, v: real)
    requires 0.0 < u && 0.0 < v
    ensures 0.0 < u * v
  {
  }

  lemma RootsMonotone(r: real, s: real)
    requires 0.0 <= r && 0.0 <= s && r * r <= s * s
    ensures r <= s
  {
    if r > s {
      ProductPositive(r - s, r + s);
    }
  }

  lemma RootsUnique(r: real, s: real)
    requires 0.0 <= r && 0.0 <= s && r * r == s * s
    ensures r == s
  {
    RootsMonotone(r, s);
    RootsMonotone(s, r);
  }

  lemma SquarePositive(u: real)
    requires u != 0.0
    ensures 0.0 < Sq(u)
  {
    if Sq(u) <= 0.0 {
      if u > 0.0 { RootsMonotone(u, 0.0); } else { RootsMonotone(-u, 0.0); }
    }
  }

  lemma SqrtOf(m: Maths, v: real)
    requires Exact(m) && 0.0 <= v
    ensures 0.0 <= m.sqrt(v) && m.sqrt(v) * m.sqrt(v) == v
  {
  }

  lemma SqrtZero(m: Maths)
    requires Exact(m)
    ensures m.sqrt(0.0) == 0.0
  {
    RootsUnique(m.sqrt(0.0), 0.0);
  }

  // ---------------------------------------------------------------------------
  // getRadian2D

  /** Swapping pointB and pointC swaps AB and AC and leaves BC unchanged. */
  lemma Radian2DSymmetric(a: Point2, b: Point2, c: Point2, m: Maths)
    ensures GetRadian2D(a, b, c, m) == GetRadian2D(a, c, b, m)
  {
    assert Sq(b.x - c.x) + Sq(b.y - c.y) == Sq(c.x - b.x) + Sq(c.y - b.y);
    assert Segment(b, c, m) == Segment(c, b, m);
    var ab, ac := Segment(a, b, m), Segment(a, c, m);
    assert 2.0 * ab * ac == 2.0 * ac * ab;
  }

  /** A degenerate triangle with pointA == pointB has no measurable angle: the result is 0. */
  lemma Radian2DDegenerate(a: Point2, c: Point2, m: Maths)
    requires Exact(m)
    ensures GetRadian2D(a, a, c, m) == 0.0
  {
    assert Sq(a.x - a.x) + Sq(a.y - a.y) == 0.0;
    SqrtZero(m);
  }

  /** The squared length of a segment is the sum of its squared coordinate differences. */
  lemma SegmentSquare(a: Point2, b: Point2, m: Maths)
    requires Exact(m)
    ensures 0.0 <= Segment(a, b, m)
    ensures Segment(a, b, m) * Segment(a, b, m) == Sq(a.x - b.x) + Sq(a.y - b.y)
  {
    assert 0.0 <= Sq(a.x - b.x) by {
      if a.x != b.x { SquarePositive(a.x - b.x); }
    }
    assert 0.0 <= Sq(a.y - b.y) by {
      if a.y != b.y { SquarePositive(a.y - b.y); }
    }
    SqrtOf(m, Sq(a.x - b.x) + Sq(a.y - b.y));
  }

  /** Cauchy-Schwarz in the plane: the squared dot product of u and v is at most
      |u|^2 |v|^2, the gap being the square of their cross product. */
  lemma DotSquareBound(ux: real, uy: real, vx: real, vy: real)
    ensures Sq(ux * vx + uy * vy) <= (Sq(ux) + Sq(uy)) * (Sq(vx) + Sq(vy))
  {
    var cross := ux * vy - uy * vx;
    assert (Sq(ux) + Sq(uy)) * (Sq(vx) + Sq(vy)) == Sq(ux * vx + uy * vy) + Sq(cross);
    if cross != 0.0 {
      SquarePositive(cross);
    }
  }

  /** A quotient whose numerator is no larger in size than its positive denominator lies in
      [-1, 1]. */
  lemma BoundedQuotient(num: real, den: real)
    requires 0.0 < den && Abs(num) <= den
    ensures -1.0 <= num / den <= 1.0
  {
    var q := num / den;
    assert q * den == num;
    if q > 1.0 {
      ProductPositive(q - 1.0, den);
    }
    if q < -1.0 {
      ProductPositive(-1.0 - q, den);
    }
  }

  /** With AB = |u|, AC = |v| and BC = |u - v| the numerator AB^2 + AC^2 - BC^2 is twice the
      dot product of u and v. */
  lemma NumeratorIsDot(ab: real, ac: real, bc: real, ux: real, uy: real, vx: real, vy: real)
    requires ab * ab == Sq(ux) + Sq(uy) && ac * ac == Sq(vx) + Sq(vy)
    requires bc * bc == Sq(ux - vx) + Sq(uy - vy)
    ensures ab * ab + ac * ac - bc * bc == 2.0 * (ux * vx + uy * vy)
  {
  }

  /** A number whose square is at most (AB AC)^2 is at most AB AC in size. */
  lemma DotBound(ab: real, ac: real, dot: real)
    requires 0.0 < ab && 0.0 < ac
    requires Sq(dot) <= (ab * ab) * (ac * ac)
    ensures Abs(dot) <= ab * ac
  {
    var p := ab * ac;
    ProductPositive(ab, ac);
    assert p * p == (ab * ab) * (ac * ac);
    assert Abs(dot) * Abs(dot) == Sq(dot);
    RootsMonotone(Abs(dot), p);
  }

  /** With AB = |u|, AC = |v| and BC = |u - v| the law-of-cosines quotient is
      u.v / (|u| |v|), which Cauchy-Schwarz makes a cosine. */
  lemma CosineBound(ab: real, ac: real, bc: real, ux: real, uy: real, vx: real, vy: real)
    requires 0.0 < ab && 0.0 < ac
    requires ab * ab == Sq(ux) + Sq(uy) && ac * ac == Sq(vx) + Sq(vy)
    requires bc * bc == Sq(ux - vx) + Sq(uy - vy)
    ensures -1.0 <= (ab * ab + ac * ac - bc * bc) / (2.0 * ab * ac) <= 1.0
  {
    var dot := ux * vx + uy * vy;
    NumeratorIsDot(ab, ac, bc, ux, uy, vx, vy);
    DotSquareBound(ux, uy, vx, vy);
    DotBound(ab, ac, dot);
    ProductPositive(ab, ac);
    assert 2.0 * ab * ac == 2.0 * (ab * ac);
    BoundedQuotient(2.0 * dot, 2.0 * (ab * ac));
  }

  /** The quotient bound for three points whose side lengths are given by their squares. */
  lemma TriangleCosineBound(a: Point2, b: Point2, c: Point2, ab: real, ac: real, bc: real)
    requires 0.0 < ab && 0.0 < ac
    requires ab * ab == Sq(a.x - b.x) + Sq(a.y - b.y)
    requires ac * ac == Sq(a.x - c.x) + Sq(a.y - c.y)
    requires bc * bc == Sq(b.x - c.x) + Sq(b.y - c.y)
    ensures -1.0 <= CosineArg(ab, ac, bc) <= 1.0
  {
    var ux, uy, vx, vy := a.x - b.x, a.y - b.y, a.x - c.x, a.y - c.y;
    SidesOfDifference(b, c, ux, uy, vx, vy);
    CosineBound(ab, ac, bc, ux, uy, vx, vy);
  }

  /** B - C is the difference (A - C) - (A - B), so its squared coordinates are those of u - v. */
  lemma SidesOfDifference(b: Point2, c: Point2, ux: real, uy: real, vx: real, vy: real)
    requires b.x - c.x == vx - ux && b.y - c.y == vy - uy
    ensures Sq(b.x - c.x) + Sq(b.y - c.y) == Sq(ux - vx) + Sq(uy - vy)
  {
  }

  /** With both sides at the vertex non-zero the denominator is non-zero, and the angle is the
      arc cosine of the quotient whenever that quotient is a cosine. */
  lemma CosineQuotient(ab: real, ac: real, bc: real, acos: real -> real)
    requires 0.0 < ab && 0.0 < ac
    ensures var arg := CosineArg(ab, ac, bc);
            AngleFromSides(ab, ac, bc, acos) == if -1.0 <= arg <= 1.0 then acos(arg) else 0.0
  {
    ProductPositive(2.0 * ab, ac);
  }

  /** Away from a degenerate triangle both segments at pointA are non-zero, and with an exact
      square root each side's square is the sum of its squared coordinate differences. */
  lemma TriangleSides(a: Point2, b: Point2, c: Point2, m: Maths)
    requires Exact(m)
    requires a != b && a != c
    ensures 0.0 < Segment(a, b, m) && 0.0 < Segment(a, c, m)
    ensures Segment(a, b, m) * Segment(a, b, m) == Sq(a.x - b.x) + Sq(a.y - b.y)
    ensures Segment(a, c, m) * Segment(a, c, m) == Sq(a.x - c.x) + Sq(a.y - c.y)
    ensures Segment(b, c, m) * Segment(b, c, m) == Sq(b.x - c.x) + Sq(b.y - c.y)
  {
    PositiveSegment(a, b, m);
    PositiveSegment(a, c, m);
    SegmentSquare(a, b, m);
    SegmentSquare(a, c, m);
    SegmentSquare(b, c, m);
  }

  /** Away from a degenerate triangle the result is the arc cosine of the law-of-cosines
      quotient: the `|| 0` fallback never applies. */
  lemma Radian2DLawOfCosines(a: Point2, b: Point2, c: Point2, m: Maths)
    requires Exact(m)
    requires a != b && a != c
    ensures 0.0 < Segment(a, b, m) && 0.0 < Segment(a, c, m)
    ensures var ab, ac, bc := Segment(a, b, m), Segment(a, c, m), Segment(b, c, m);
            var arg := CosineArg(ab, ac, bc);
            -1.0 <= arg <= 1.0 && GetRadian2D(a, b, c, m) == m.acos(arg)
  {
    var ab, ac, bc := Segment(a, b, m), Segment(a, c, m), Segment(b, c, m);
    TriangleSides(a, b, c, m);
    TriangleCosineBound(a, b, c, ab, ac, bc);
    CosineQuotient(ab, ac, bc, m.acos);
  }

  lemma PositiveSegment(a: Point2, b: Point2, m: Maths)
    requires Exact(m) && a != b
    ensures 0.0 < Segment(a, b, m)
  {
    var v := Sq(a.x - b.x) + Sq(a.y - b.y);
    if a.x != b.x {
      SquarePositive(a.x - b.x);
    } else {
      SquarePositive(a.y - b.y);
    }
    SqrtOf(m, v);
  }

  /** Dividing q * d by d gives back q. */
  lemma DivideProduct(q: real, d: real)
    requires d != 0.0
    ensures (q * d) / d == q
  {
  }

  /** For a triangle right-angled at C the law-of-cosines quotient is AC / AB, a cosine in
      (0, 1]; the angle is 0 when AC is 0. */
  lemma RightTriangleAngle(ab: real, ac: real, bc: real, acos: real -> real)
    requires 0.0 <= ac && 0.0 <= ab
    requires ab * ab == ac * ac + bc * bc
    ensures ac == 0.0 ==> AngleFromSides(ab, ac, bc, acos) == 0.0
    ensures ac != 0.0 ==> 0.0 < ab && 0.0 < ac / ab <= 1.0 && AngleFromSides(ab, ac, bc, acos) == acos(ac / ab)
  {
    if ac != 0.0 {
      var bb := bc * bc;
      assert 0.0 <= bb by {
        if bc != 0.0 { SquarePositive(bc); }
      }
      RootsMonotone(ac, ab);
      assert 0.0 < ab;
      var q := ac / ab;
      assert q * ab == ac;
      var num, den := Sq(ab) + Sq(ac) - Sq(bc), 2.0 * ab * ac;
      assert num == 2.0 * ac * ac;
      assert num == q * den;
      ProductPositive(2.0 * ab, ac);
      DivideProduct(q, den);
      assert num / den == q;
      assert 0.0 < q by {
        assert q * ab == ac;
        if q <= 0.0 {
          ProductPositive(-q, ab);
        }
      }
      assert q <= 1.0 by {
        if q > 1.0 {
          ProductPositive(q - 1.0, ab);
        }
      }
    }
  }

  /** The triangles the rig measures are right-angled at pointC = (pointB.x, pointA.y). For
      them the quotient is AC / AB = |dx| / sqrt(dx^2 + dy^2), which lies in (0, 1]. The
      result is 0 when pointA and pointB share their x coordinate; otherwise it is the arc
      cosine of that ratio, which is 0 exactly when they also share their y coordinate. */
  lemma RightAngleRadian(a: Point2, b: Point2, m: Maths)
    requires Exact(m)
    ensures a.x == b.x ==> GetRadian2D(a, b, Point2(b.x, a.y), m) == 0.0
    ensures a.x != b.x ==>
              0.0 < Segment(a, b, m) &&
              0.0 < Abs(a.x - b.x) / Segment(a, b, m) <= 1.0 &&
              GetRadian2D(a, b, Point2(b.x, a.y), m) == m.acos(Abs(a.x - b.x) / Segment(a, b, m))
  {
    RightTriangleSides(a, b, m);
    var c := Point2(b.x, a.y);
    RightTriangleAngle(Segment(a, b, m), Segment(a, c, m), Segment(b, c, m), m.acos);
  }

  /** With C = (b.x, a.y): AC = |dx|, and AB^2 = AC^2 + BC^2 (Pythagoras). */
  lemma RightTriangleSides(a: Point2, b: Point2, m: Maths)
    requires Exact(m)
    ensures var c := Point2(b.x, a.y);
            var ab, ac, bc := Segment(a, b, m), Segment(a, c, m), Segment(b, c, m);
            0.0 <= ab && ac == Abs(a.x - b.x) && ab * ab == ac * ac + bc * bc
  {
    var c := Point2(b.x, a.y);
    var dx, dy := a.x - b.x, a.y - b.y;
    assert Sq(a.x - c.x) + Sq(a.y - c.y) == Sq(dx);
    assert Sq(b.x - c.x) + Sq(b.y - c.y) == Sq(dy);
    SqrtOf(m, Sq(dx) + Sq(dy));
    SqrtOf(m, Sq(dx));
    SqrtOf(m, Sq(dy));
    assert Sq(dx) == Abs(dx) * Abs(dx);
    RootsUnique(Segment(a, c, m), Abs(dx));
  }

  // ---------------------------------------------------------------------------
  // getDistance3D

  lemma Distance3DSelf(p: Point3, m: Maths)
    requires Exact(m)
    ensures GetDistance3D(p, p, m) == 0.0
  {
    assert SquaredDistance3D(p, p) == 0.0;
    SqrtZero(m);
  }

  lemma Distance3DSymmetric(p: Point3, q: Point3, m: Maths)
    ensures GetDistance3D(p, q, m) == GetDistance3D(q, p, m)
  {
    assert (p.z - q.z) / DepthAnisotropy == -((q.z - p.z) / DepthAnisotropy);
    assert SquaredDistance3D(p, q) == SquaredDistance3D(q, p);
  }

  /** The distance is non-negative and its square is dx^2 + dy^2 + (dz / 1.65)^2. */
  lemma Distance3DSquared(p: Point3, q: Point3, m: Maths)
    requires Exact(m)
    ensures 0.0 <= GetDistance3D(p, q, m)
    ensures GetDistance3D(p, q, m) * GetDistance3D(p, q, m) ==
            Sq(p.x - q.x) + Sq(p.y - q.y) + Sq((p.z - q.z) / DepthAnisotropy)
  {
    SquareMonotone(0.0, p.x - q.x);
    SquareMonotone(0.0, p.y - q.y);
    SquareMonotone(0.0, (p.z - q.z) / DepthAnisotropy);
  }

  /** Two points that differ only in depth, by d, are |d| / 1.65 apart. */
  lemma Distance3DDepthOnly(p: Point3, d: real, m: Maths)
    requires Exact(m)
    ensures GetDistance3D(p, Point3(p.x, p.y, p.z + d), m) == Abs(d) / DepthAnisotropy
  {
    var q := Point3(p.x, p.y, p.z + d);
    var e := Abs(d) / DepthAnisotropy;
    assert (p.z - q.z) / DepthAnisotropy == -d / DepthAnisotropy;
    assert SquaredDistance3D(p, q) == Sq(-d / DepthAnisotropy);
    assert Sq(-d / DepthAnisotropy) == e * e;
    Distance3DSquared(p, q, m);
    RootsUnique(GetDistance3D(p, q, m), e);
  }

  /** Growing the magnitude of each coordinate difference never shrinks the distance. */
  lemma Distance3DMonotone(p: Point3, q: Point3, p': Point3, q': Point3, m: Maths)
    requires Exact(m)
    requires Abs(p.x - q.x) <= Abs(p'.x - q'.x)
    requires Abs(p.y - q.y) <= Abs(p'.y - q'.y)
    requires Abs(p.z - q.z) <= Abs(p'.z - q'.z)
    ensures GetDistance3D(p, q, m) <= GetDistance3D(p', q', m)
  {
    SquareMonotone(p.x - q.x, p'.x - q'.x);
    SquareMonotone(p.y - q.y, p'.y - q'.y);
    SquareMonotone((p.z - q.z) / DepthAnisotropy, (p'.z - q'.z) / DepthAnisotropy);
    Distance3DSquared(p, q, m);
    Distance3DSquared(p', q', m);
    RootsMonotone(GetDistance3D(p, q, m), GetDistance3D(p', q', m));
  }

  lemma SquareMonotone(u: real, v: real)
    requires Abs(u) <= Abs(v)
    ensures Sq(u) <= Sq(v)
  {
    assert Sq(u) == Abs(u) * Abs(u);
    assert Sq(v) == Abs(v) * Abs(v);
    assert Abs(u) * Abs(u) <= Abs(v) * Abs(u) <= Abs(v) * Abs(v);
  }
}
