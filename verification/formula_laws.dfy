/** Algebraic identities between the formulas of the library. They hold
    over the reals for every value the `Math` primitives may take, and
    with NaN arguments as well where the statement says so. */
module FormulaLaws {
  import opened Numbers
  import opened Formulas

  /** The inner and outer angle of a regular polygon add up to 180
      degrees for every non-zero side count, and to NaN otherwise. */
  lemma {:induction false} AnglesAreSupplementary(n: Num)
    ensures n.Fin? && n.v != 0.0 ==> Add(InnerAngle(n), OuterAngle(n)) == Fin(180.0)
    ensures !(n.Fin? && n.v != 0.0) ==> Add(InnerAngle(n), OuterAngle(n)) == NaN
  {
    if n.Fin? && n.v != 0.0 {
      var k := n.v;
      assert (k - 2.0) * 180.0 / k + 360.0 / k == ((k - 2.0) * 180.0 + 360.0) / k;
      assert (k - 2.0) * 180.0 + 360.0 == 180.0 * k;
    }
  }

  /** The rhombus perimeter is four times its side length. */
  lemma PerimeterIsFourSides(m: MathLib, d1: Num, d2: Num)
    ensures RhombusPerimeter(m, d1, d2) == Mul(Fin(4.0), RhombusSideLength(m, d1, d2))
  {
  }

  /** Swapping the first two sides leaves Heron's product unchanged. */
  lemma {:induction false} HeronSwapFirst(a: Num, b: Num, c: Num)
    ensures HeronProduct(a, b, c) == HeronProduct(b, a, c)
  {
    if a.Fin? && b.Fin? && c.Fin? {
      var s := (a.v + b.v + c.v) / 2.0;
      assert (a.v + b.v) + c.v == (b.v + a.v) + c.v;
      assert s * (s - a.v) * (s - b.v) * (s - c.v) == s * (s - b.v) * (s - a.v) * (s - c.v);
    }
  }

  /** Swapping the last two sides leaves Heron's product unchanged. */
  lemma {:induction false} HeronSwapLast(a: Num, b: Num, c: Num)
    ensures HeronProduct(a, b, c) == HeronProduct(a, c, b)
  {
    if a.Fin? && b.Fin? && c.Fin? {
      var s := (a.v + b.v + c.v) / 2.0;
      assert (a.v + b.v) + c.v == (a.v + c.v) + b.v;
      assert s * (s - a.v) * (s - b.v) * (s - c.v) == s * (s - a.v) * (s - c.v) * (s - b.v);
    }
  }

  /** Heron's product, and so the scalene area, is the same for every
      ordering of the three sides. */
  lemma HeronIsSymmetric(m: MathLib, a: Num, b: Num, c: Num)
    ensures HeronProduct(a, b, c) == HeronProduct(a, c, b) == HeronProduct(b, a, c)
         == HeronProduct(b, c, a) == HeronProduct(c, a, b) == HeronProduct(c, b, a)
    ensures ScaleneArea(m, a, b, c) == ScaleneArea(m, a, c, b) == ScaleneArea(m, b, a, c)
         == ScaleneArea(m, b, c, a) == ScaleneArea(m, c, a, b) == ScaleneArea(m, c, b, a)
  {
    HeronSwapLast(a, b, c);
    HeronSwapFirst(a, b, c);
    HeronSwapLast(b, a, c);
    HeronSwapFirst(b, c, a);
    HeronSwapLast(c, a, b);
  }

  /** For positive sides, the scalene area is a number exactly when the
      sides satisfy the triangle inequality; otherwise the square root of
      a negative Heron product makes it NaN. */
  lemma {:induction false} ScaleneAreaDefinedIffTriangle(m: MathLib, a: real, b: real, c: real)
    requires a > 0.0 && b > 0.0 && c > 0.0
    ensures ScaleneArea(m, Fin(a), Fin(b), Fin(c)).Fin? <==> a <= b + c && b <= a + c && c <= a + b
  {
    var s := (a + b + c) / 2.0;
    var p := s * (s - a) * (s - b) * (s - c);
    assert HeronProduct(Fin(a), Fin(b), Fin(c)) == Fin(p);
    assert s > 0.0;
    if a <= b + c && b <= a + c && c <= a + b {
      assert s - a >= 0.0 && s - b >= 0.0 && s - c >= 0.0;
      NonNegativeProduct(s, s - a, s - b, s - c);
    } else {
      // at most one factor is negative, because any two of them add up to a side
      assert (s - a) + (s - b) == c && (s - a) + (s - c) == b && (s - b) + (s - c) == a;
      if a > b + c {
        NegativeProduct(s, s - b, s - c, s - a);
        assert p == s * (s - b) * (s - c) * (s - a);
      } else if b > a + c {
        NegativeProduct(s, s - a, s - c, s - b);
        assert p == s * (s - a) * (s - c) * (s - b);
      } else {
        NegativeProduct(s, s - a, s - b, s - c);
      }
    }
  }

  lemma ProductIsPositive(x: real, y: real)
    requires x > 0.0 && y > 0.0
    ensures x * y > 0.0
  {
  }

  lemma NonNegativeProduct(w: real, x: real, y: real, z: real)
    requires w >= 0.0 && x >= 0.0 && y >= 0.0 && z >= 0.0
    ensures w * x * y * z >= 0.0
  {
    assert w * x >= 0.0;
    assert w * x * y >= 0.0;
  }

  lemma NegativeProduct(w: real, x: real, y: real, z: real)
    requires w > 0.0 && x > 0.0 && y > 0.0 && z < 0.0
    ensures w * x * y * z < 0.0
  {
    assert w * x > 0.0;
    assert w * x * y > 0.0;
  }

  /** Rectangle area and perimeter do not depend on which side is called
      the length. */
  lemma RectangleIsSymmetric(length: Num, width: Num)
    ensures RectangleArea(length, width) == RectangleArea(width, length)
    ensures RectanglePerimeter(length, width) == RectanglePerimeter(width, length)
  {
  }

  /** A box with three equal sides is a cube. */
  lemma {:induction false} CubeIsEqualSidedBox(side: Num)
    ensures BoxVolume(side, side, side) == CubeVolume(side)
    ensures BoxSurfaceArea(side, side, side) == CubeSurfaceArea(side)
  {
    if side.Fin? {
      var s := side.v;
      assert 2.0 * (s * s + s * s + s * s) == 6.0 * s * s;
    }
  }

  /** An equilateral triangle is a scalene triangle with three equal
      sides, as far as the perimeter formulas are concerned. */
  lemma EquilateralIsEqualSidedScalene(side: Num)
    ensures EquilateralPerimeter(side) == ScalenePerimeter(side, side, side)
  {
  }

  /** A square is a regular polygon with four sides, as far as the
      perimeter formulas are concerned. */
  lemma SquareIsFourSidedPolygon(side: Num)
    ensures PolygonPerimeter(side, Fin(4.0)) == SquarePerimeter(side)
  {
  }

  /** A regular pyramid has a third of the volume of the regular prism on
      the same base with the same height. */
  lemma PyramidIsThirdOfPrism(m: MathLib, side: Num, n: Num, height: Num)
    ensures PyramidVolume(m, side, n, height) == Div(PrismVolume(m, side, n, height), Fin(3.0))
  {
  }

  /** Positive measurements give positive areas and perimeters for the
      plane formulas that need no primitive of `Math`. */
  lemma {:induction false} PositiveMeasuresGivePositiveAreas(a: Num, b: Num, c: Num)
    requires Positive(a) && Positive(b) && Positive(c)
    ensures Positive(SquareArea(a)) && Positive(SquarePerimeter(a))
    ensures Positive(RectangleArea(a, b)) && Positive(RectanglePerimeter(a, b))
    ensures Positive(TrapeziumArea(a, b, c))
  {
    MulIsPositive(a, a);
    MulIsPositive(Fin(4.0), a);
    MulIsPositive(a, b);
    MulIsPositive(Fin(2.0), Add(a, b));
    MulIsPositive(Div(Add(a, b), Fin(2.0)), c);
  }

  /** Positive measurements give positive volumes and surface areas for the
      solid formulas that need no primitive of `Math`. */
  lemma {:induction false} PositiveMeasuresGivePositiveVolumes(a: Num, b: Num, c: Num)
    requires Positive(a) && Positive(b) && Positive(c)
    ensures Positive(CubeVolume(a)) && Positive(CubeSurfaceArea(a))
    ensures Positive(BoxVolume(a, b, c)) && Positive(BoxSurfaceArea(a, b, c))
  {
    MulIsPositive(a, a);
    MulIsPositive(Mul(a, a), a);
    MulIsPositive(Fin(6.0), a);
    MulIsPositive(Mul(Fin(6.0), a), a);
    MulIsPositive(a, b);
    MulIsPositive(Mul(a, b), c);
    MulIsPositive(b, c);
    MulIsPositive(c, a);
    MulIsPositive(Fin(2.0), Add(Add(Mul(a, b), Mul(b, c)), Mul(c, a)));
  }

  /** The product of two positive numbers is positive. */
  lemma MulIsPositive(p: Num, q: Num)
    requires Positive(p) && Positive(q)
    ensures Positive(Mul(p, q))
  {
    ProductIsPositive(p.v, q.v);
  }
}
