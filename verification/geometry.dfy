/** Planar points, 2x3 affine matrices and the 3x3 inverse that `np.linalg.inv`
    computes, over exact reals.

    Every matrix entry is built from the two scalar operations `Dot` and `Minor`, and
    the algebra (adjugate identities, associativity) is proved once over plain reals
    in terms of those operations; the matrix-level facts then follow by matching
    entries. */
module Geometry {
  import opened Errors

  datatype Point = Point(x: real, y: real)

  /** Three points, as the 3x2 point arrays of the calibrator. */
  type Tri = s: seq<Point> | |s| == 3 witness [Point(0.0, 0.0), Point(0.0, 0.0), Point(0.0, 0.0)]

  /** A 2x3 matrix [[a, b, c], [d, e, f]] acting on homogeneous points (x, y, 1). */
  datatype Affine = Affine(a: real, b: real, c: real, d: real, e: real, f: real)

  /** A 3x3 matrix, row by row. */
  datatype Mat3 = Mat3(m00: real, m01: real, m02: real,
                       m10: real, m11: real, m12: real,
                       m20: real, m21: real, m22: real)

  /** The dot product of (x0, x1, x2) and (y0, y1, y2). */
  function Dot(x0: real, x1: real, x2: real, y0: real, y1: real, y2: real): real
  {
    x0 * y0 + x1 * y1 + x2 * y2
  }

  /** The 2x2 determinant x * y - u * v. */
  function Minor(x: real, y: real, u: real, v: real): real
  {
    x * y - u * v
  }

  /** The image of point `p` under `m`: m @ [p.x, p.y, 1]. */
  function Apply(m: Affine, p: Point): Point
  {
    Point(Dot(m.a, m.b, m.c, p.x, p.y, 1.0), Dot(m.d, m.e, m.f, p.x, p.y, 1.0))
  }

  const Identity3 := Mat3(1.0, 0.0, 0.0, 0.0, 1.0, 0.0, 0.0, 0.0, 1.0)

  /** The matrix product `p @ q`. */
  function Mul3(p: Mat3, q: Mat3): Mat3
  {
    Mat3(Dot(p.m00, p.m01, p.m02, q.m00, q.m10, q.m20),
         Dot(p.m00, p.m01, p.m02, q.m01, q.m11, q.m21),
         Dot(p.m00, p.m01, p.m02, q.m02, q.m12, q.m22),
         Dot(p.m10, p.m11, p.m12, q.m00, q.m10, q.m20),
         Dot(p.m10, p.m11, p.m12, q.m01, q.m11, q.m21),
         Dot(p.m10, p.m11, p.m12, q.m02, q.m12, q.m22),
         Dot(p.m20, p.m21, p.m22, q.m00, q.m10, q.m20),
         Dot(p.m20, p.m21, p.m22, q.m01, q.m11, q.m21),
         Dot(p.m20, p.m21, p.m22, q.m02, q.m12, q.m22))
  }

  /** The 2x3 by 3x3 product `a @ q`. */
  function MulAffine(a: Affine, q: Mat3): Affine
  {
    Affine(Dot(a.a, a.b, a.c, q.m00, q.m10, q.m20),
           Dot(a.a, a.b, a.c, q.m01, q.m11, q.m21),
           Dot(a.a, a.b, a.c, q.m02, q.m12, q.m22),
           Dot(a.d, a.e, a.f, q.m00, q.m10, q.m20),
           Dot(a.d, a.e, a.f, q.m01, q.m11, q.m21),
           Dot(a.d, a.e, a.f, q.m02, q.m12, q.m22))
  }

  /** The product of two reals, named so that scaled entries are compared as terms. */
  function Times(x: real, y: real): real
  {
    x * y
  }

  lemma ZeroTimes(v: real)
    ensures Times(0.0, v) == 0.0
  {
  }

  lemma TimesLe(a: real, b: real, n: real)
    requires a <= b && n > 0.0
    ensures Times(a, n) <= Times(b, n)
  {
  }

  lemma TimesLt(a: real, b: real, n: real)
    requires a < b && n > 0.0
    ensures Times(a, n) < Times(b, n)
  {
  }

  lemma DivTimes(x: real, n: real)
    requires n != 0.0
    ensures Times(x / n, n) == x
  {
  }

  lemma TimesSucc(f: real, n: real)
    ensures Times(f + 1.0, n) == Times(f, n) + n
  {
  }

  lemma TimesCancel(a: real, b: real, n: real)
    requires n != 0.0 && Times(a, n) == Times(b, n)
    ensures a == b
  {
  }

  function Scale(s: real, m: Mat3): Mat3
  {
    Mat3(Times(s, m.m00), Times(s, m.m01), Times(s, m.m02),
         Times(s, m.m10), Times(s, m.m11), Times(s, m.m12),
         Times(s, m.m20), Times(s, m.m21), Times(s, m.m22))
  }

  /** The transposed matrix of cofactors. */
  function Adjugate(m: Mat3): Mat3
  {
    Mat3(Minor(m.m11, m.m22, m.m12, m.m21), Minor(m.m02, m.m21, m.m01, m.m22), Minor(m.m01, m.m12, m.m02, m.m11),
         Minor(m.m12, m.m20, m.m10, m.m22), Minor(m.m00, m.m22, m.m02, m.m20), Minor(m.m02, m.m10, m.m00, m.m12),
         Minor(m.m10, m.m21, m.m11, m.m20), Minor(m.m01, m.m20, m.m00, m.m21), Minor(m.m00, m.m11, m.m01, m.m10))
  }

  /** The determinant, expanded along the first row. */
  function Det(m: Mat3): real
  {
    Dot(m.m00, m.m01, m.m02, Adjugate(m).m00, Adjugate(m).m10, Adjugate(m).m20)
  }

  /** `np.linalg.inv`: the inverse, or LinAlgError for a singular matrix. */
  function Inverse(m: Mat3): (r: Result<Mat3>)
    ensures r.Err? <==> Det(m) == 0.0
    ensures r.Err? ==> r.error == LinAlgError
    ensures r.Ok? ==> Mul3(r.value, m) == Identity3
  {
    if Det(m) == 0.0 then Err(LinAlgError)
    else
      var k := 1.0 / Det(m);
      ReciprocalTimes(Det(m), k);
      InverseIsLeftInverse(m, k);
      Ok(Scale(k, Adjugate(m)))
  }

  lemma ReciprocalTimes(det: real, k: real)
    requires det != 0.0 && k == 1.0 / det
    ensures Times(k, det) == 1.0
  {
  }

  /** adjugate(m) / det(m) is a left inverse of m. */
  lemma InverseIsLeftInverse(m: Mat3, k: real)
    requires Times(k, Det(m)) == 1.0
    ensures Mul3(Scale(k, Adjugate(m)), m) == Identity3
  {
    ScaleMul(k, Adjugate(m), m);
    AdjugateTimesMatrix(m);
  }

  /** (k * p) @ q == k * (p @ q). */
  lemma ScaleMul(k: real, p: Mat3, q: Mat3)
    ensures Mul3(Scale(k, p), q) == Scale(k, Mul3(p, q))
  {
    assert Mul3(Scale(k, p), q).m00 == Scale(k, Mul3(p, q)).m00 by {
      ScaledDot(k, p.m00, p.m01, p.m02, q.m00, q.m10, q.m20, Mul3(p, q).m00);
    }
    assert Mul3(Scale(k, p), q).m01 == Scale(k, Mul3(p, q)).m01 by {
      ScaledDot(k, p.m00, p.m01, p.m02, q.m01, q.m11, q.m21, Mul3(p, q).m01);
    }
    assert Mul3(Scale(k, p), q).m02 == Scale(k, Mul3(p, q)).m02 by {
      ScaledDot(k, p.m00, p.m01, p.m02, q.m02, q.m12, q.m22, Mul3(p, q).m02);
    }
    assert Mul3(Scale(k, p), q).m10 == Scale(k, Mul3(p, q)).m10 by {
      ScaledDot(k, p.m10, p.m11, p.m12, q.m00, q.m10, q.m20, Mul3(p, q).m10);
    }
    assert Mul3(Scale(k, p), q).m11 == Scale(k, Mul3(p, q)).m11 by {
      ScaledDot(k, p.m10, p.m11, p.m12, q.m01, q.m11, q.m21, Mul3(p, q).m11);
    }
    assert Mul3(Scale(k, p), q).m12 == Scale(k, Mul3(p, q)).m12 by {
      ScaledDot(k, p.m10, p.m11, p.m12, q.m02, q.m12, q.m22, Mul3(p, q).m12);
    }
    assert Mul3(Scale(k, p), q).m20 == Scale(k, Mul3(p, q)).m20 by {
      ScaledDot(k, p.m20, p.m21, p.m22, q.m00, q.m10, q.m20, Mul3(p, q).m20);
    }
    assert Mul3(Scale(k, p), q).m21 == Scale(k, Mul3(p, q)).m21 by {
      ScaledDot(k, p.m20, p.m21, p.m22, q.m01, q.m11, q.m21, Mul3(p, q).m21);
    }
    assert Mul3(Scale(k, p), q).m22 == Scale(k, Mul3(p, q)).m22 by {
      ScaledDot(k, p.m20, p.m21, p.m22, q.m02, q.m12, q.m22, Mul3(p, q).m22);
    }
  }

  /** Scaling a row by k scales its product with a column by k. */
  lemma ScaledDot(k: real, a0: real, a1: real, a2: real, x: real, y: real, z: real, v: real)
    requires Dot(a0, a1, a2, x, y, z) == v
    ensures Dot(Times(k, a0), Times(k, a1), Times(k, a2), x, y, z) == Times(k, v)
  {
    assert (k * a0) * x == k * (a0 * x);
    assert (k * a1) * y == k * (a1 * y);
    assert (k * a2) * z == k * (a2 * z);
  }

  /** adjugate(m) @ m == det(m) * I. */
  lemma AdjugateTimesMatrix(m: Mat3)
    ensures Mul3(Adjugate(m), m) == Mat3(Det(m), 0.0, 0.0, 0.0, Det(m), 0.0, 0.0, 0.0, Det(m))
  {
    assert Mul3(Adjugate(m), m).m00 == Det(m) && Mul3(Adjugate(m), m).m01 == 0.0
        && Mul3(Adjugate(m), m).m02 == 0.0 by {
      AdjugateRow0(m.m00, m.m01, m.m02, m.m10, m.m11, m.m12, m.m20, m.m21, m.m22,
                   Adjugate(m).m00, Adjugate(m).m01, Adjugate(m).m02, Adjugate(m).m10, Adjugate(m).m20);
    }
    assert Mul3(Adjugate(m), m).m10 == 0.0 && Mul3(Adjugate(m), m).m11 == Det(m)
        && Mul3(Adjugate(m), m).m12 == 0.0 by {
      AdjugateRow1(m.m00, m.m01, m.m02, m.m10, m.m11, m.m12, m.m20, m.m21, m.m22,
                   Adjugate(m).m00, Adjugate(m).m10, Adjugate(m).m11, Adjugate(m).m12, Adjugate(m).m20);
    }
    assert Mul3(Adjugate(m), m).m20 == 0.0 && Mul3(Adjugate(m), m).m21 == 0.0
        && Mul3(Adjugate(m), m).m22 == Det(m) by {
      AdjugateRow2(m.m00, m.m01, m.m02, m.m10, m.m11, m.m12, m.m20, m.m21, m.m22,
                   Adjugate(m).m00, Adjugate(m).m10, Adjugate(m).m20, Adjugate(m).m21, Adjugate(m).m22);
    }
  }

  /** Row 0 of adjugate(m) @ m: det(m), 0, 0. */
  lemma AdjugateRow0(a: real, b: real, c: real, d: real, e: real, f: real, g: real, h: real, i: real,
                     A00: real, A01: real, A02: real, A10: real, A20: real)
    requires A00 == Minor(e, i, f, h) && A01 == Minor(c, h, b, i) && A02 == Minor(b, f, c, e)
    requires A10 == Minor(f, g, d, i) && A20 == Minor(d, h, e, g)
    ensures Dot(A00, A01, A02, a, d, g) == Dot(a, b, c, A00, A10, A20)
    ensures Dot(A00, A01, A02, b, e, h) == 0.0
    ensures Dot(A00, A01, A02, c, f, i) == 0.0
  {
    ExpandProduct(A00, e, i, f, h, a); ExpandProduct(A01, c, h, b, i, d); ExpandProduct(A02, b, f, c, e, g);
    ExpandProduct(A00, e, i, f, h, b); ExpandProduct(A01, c, h, b, i, e); ExpandProduct(A02, b, f, c, e, h);
    ExpandProduct(A00, e, i, f, h, c); ExpandProduct(A01, c, h, b, i, f); ExpandProduct(A02, b, f, c, e, i);
    ExpandProduct(A10, f, g, d, i, b); ExpandProduct(A20, d, h, e, g, c);
  }

  /** Row 1 of adjugate(m) @ m: 0, det(m), 0. */
  lemma AdjugateRow1(a: real, b: real, c: real, d: real, e: real, f: real, g: real, h: real, i: real,
                     A00: real, A10: real, A11: real, A12: real, A20: real)
    requires A00 == Minor(e, i, f, h) && A20 == Minor(d, h, e, g)
    requires A10 == Minor(f, g, d, i) && A11 == Minor(a, i, c, g) && A12 == Minor(c, d, a, f)
    ensures Dot(A10, A11, A12, a, d, g) == 0.0
    ensures Dot(A10, A11, A12, b, e, h) == Dot(a, b, c, A00, A10, A20)
    ensures Dot(A10, A11, A12, c, f, i) == 0.0
  {
    ExpandProduct(A10, f, g, d, i, a); ExpandProduct(A11, a, i, c, g, d); ExpandProduct(A12, c, d, a, f, g);
    ExpandProduct(A10, f, g, d, i, b); ExpandProduct(A11, a, i, c, g, e); ExpandProduct(A12, c, d, a, f, h);
    ExpandProduct(A10, f, g, d, i, c); ExpandProduct(A11, a, i, c, g, f); ExpandProduct(A12, c, d, a, f, i);
    ExpandProduct(A00, e, i, f, h, a); ExpandProduct(A20, d, h, e, g, c);
  }

  /** Row 2 of adjugate(m) @ m: 0, 0, det(m). */
  lemma AdjugateRow2(a: real, b: real, c: real, d: real, e: real, f: real, g: real, h: real, i: real,
                     A00: real, A10: real, A20: real, A21: real, A22: real)
    requires A00 == Minor(e, i, f, h) && A10 == Minor(f, g, d, i)
    requires A20 == Minor(d, h, e, g) && A21 == Minor(b, g, a, h) && A22 == Minor(a, e, b, d)
    ensures Dot(A20, A21, A22, a, d, g) == 0.0
    ensures Dot(A20, A21, A22, b, e, h) == 0.0
    ensures Dot(A20, A21, A22, c, f, i) == Dot(a, b, c, A00, A10, A20)
  {
    ExpandProduct(A20, d, h, e, g, a); ExpandProduct(A21, b, g, a, h, d); ExpandProduct(A22, a, e, b, d, g);
    ExpandProduct(A20, d, h, e, g, b); ExpandProduct(A21, b, g, a, h, e); ExpandProduct(A22, a, e, b, d, h);
    ExpandProduct(A20, d, h, e, g, c); ExpandProduct(A21, b, g, a, h, f); ExpandProduct(A22, a, e, b, d, i);
    ExpandProduct(A00, e, i, f, h, a); ExpandProduct(A10, f, g, d, i, b);
  }

  lemma ExpandProduct(t: real, x: real, y: real, u: real, v: real, z: real)
    requires t == x * y - u * v
    ensures t * z == x * y * z - u * v * z
  {
  }

  /** (u @ p) @ q == u @ (p @ q) for a row u, a 3x3 matrix p and a column q. */
  lemma DotAssoc(u0: real, u1: real, u2: real,
                 p00: real, p01: real, p02: real, p10: real, p11: real, p12: real,
                 p20: real, p21: real, p22: real,
                 q0: real, q1: real, q2: real)
    ensures Dot(Dot(u0, u1, u2, p00, p10, p20), Dot(u0, u1, u2, p01, p11, p21),
                Dot(u0, u1, u2, p02, p12, p22), q0, q1, q2)
         == Dot(u0, u1, u2, Dot(p00, p01, p02, q0, q1, q2), Dot(p10, p11, p12, q0, q1, q2),
                Dot(p20, p21, p22, q0, q1, q2))
  {
    var l0, l1, l2 := Dot(u0, u1, u2, p00, p10, p20), Dot(u0, u1, u2, p01, p11, p21), Dot(u0, u1, u2, p02, p12, p22);
    var r0, r1, r2 := Dot(p00, p01, p02, q0, q1, q2), Dot(p10, p11, p12, q0, q1, q2), Dot(p20, p21, p22, q0, q1, q2);
    ExpandSum(l0, u0, p00, u1, p10, u2, p20, q0);
    ExpandSum(l1, u0, p01, u1, p11, u2, p21, q1);
    ExpandSum(l2, u0, p02, u1, p12, u2, p22, q2);
    ExpandSum(r0, p00, q0, p01, q1, p02, q2, u0);
    ExpandSum(r1, p10, q0, p11, q1, p12, q2, u1);
    ExpandSum(r2, p20, q0, p21, q1, p22, q2, u2);
  }

  lemma ExpandSum(t: real, x0: real, y0: real, x1: real, y1: real, x2: real, y2: real, z: real)
    requires t == x0 * y0 + x1 * y1 + x2 * y2
    ensures t * z == x0 * y0 * z + x1 * y1 * z + x2 * y2 * z
  {
  }

  /** The homogeneous point matrix: x coordinates, y coordinates, then a row of
      ones, so that column k is point k with a trailing 1. */
  function Homogeneous(t: Tri): Mat3
  {
    Mat3(t[0].x, t[1].x, t[2].x,
         t[0].y, t[1].y, t[2].y,
         1.0, 1.0, 1.0)
  }

  /** The transposed point array, a 2x3 matrix whose column k is point k. */
  function Transposed(t: Tri): Affine
  {
    Affine(t[0].x, t[1].x, t[2].x, t[0].y, t[1].y, t[2].y)
  }

  /** `m` sends each point of `from` to the point of `to` with the same index. */
  predicate MapsPoints(m: Affine, from: Tri, to: Tri)
  {
    forall k :: 0 <= k < 3 ==> Apply(m, from[k]) == to[k]
  }

  /** `to.T @ inv(homogeneous(from))`: the affine map sending each point of `from`
      to the point of `to` with the same index. */
  function SolveAffine(from: Tri, to: Tri): (r: Result<Affine>)
    ensures r.Err? <==> Det(Homogeneous(from)) == 0.0
    ensures r.Err? ==> r.error == LinAlgError
    ensures r.Ok? ==> MapsPoints(r.value, from, to)
  {
    var inv :- Inverse(Homogeneous(from));
    SolveAffineMapsPoints(from, to, inv);
    Ok(MulAffine(Transposed(to), inv))
  }

  lemma SolveAffineMapsPoints(from: Tri, to: Tri, inv: Mat3)
    requires Mul3(inv, Homogeneous(from)) == Identity3
    ensures MapsPoints(MulAffine(Transposed(to), inv), from, to)
  {
    forall k | 0 <= k < 3
      ensures Apply(MulAffine(Transposed(to), inv), from[k]) == to[k]
    {
      var x, y := from[k].x, from[k].y;
      DotAssoc(to[0].x, to[1].x, to[2].x, inv.m00, inv.m01, inv.m02, inv.m10, inv.m11, inv.m12,
               inv.m20, inv.m21, inv.m22, x, y, 1.0);
      DotAssoc(to[0].y, to[1].y, to[2].y, inv.m00, inv.m01, inv.m02, inv.m10, inv.m11, inv.m12,
               inv.m20, inv.m21, inv.m22, x, y, 1.0);
    }
  }

  /** Twice the signed area of the triangle: zero exactly when the three points are
      collinear. */
  function Orientation(t: Tri): real
  {
    (t[1].x - t[0].x) * (t[2].y - t[0].y) - (t[2].x - t[0].x) * (t[1].y - t[0].y)
  }

  /** The homogeneous point matrix is singular exactly for collinear points. */
  lemma HomogeneousSingularIffCollinear(t: Tri)
    ensures Det(Homogeneous(t)) == Orientation(t)
  {
  }
}
