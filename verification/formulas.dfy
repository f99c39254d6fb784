/** The formula library: one function per `calculate*` entry, written with
    the same operations in the same order as the JavaScript expression, so
    that NaN arguments propagate exactly as they do there. */
module Formulas {
  import opened Numbers

  // Circle and ellipse

  function CircleArea(m: MathLib, radius: Num): Num {
    Mul(Mul(Pi(m), radius), radius)
  }

  function CircleCircumference(m: MathLib, radius: Num): Num {
    Mul(Mul(Fin(2.0), Pi(m)), radius)
  }

  function EllipseArea(m: MathLib, a: Num, b: Num): Num {
    Mul(Mul(Pi(m), a), b)
  }

  // Square and rectangle

  function SquareArea(side: Num): Num {
    Mul(side, side)
  }

  function SquarePerimeter(side: Num): Num {
    Mul(Fin(4.0), side)
  }

  function SquareDiagonal(m: MathLib, side: Num): Num {
    Mul(side, Sqrt(m, Fin(2.0)))
  }

  function RectangleArea(length: Num, width: Num): Num {
    Mul(length, width)
  }

  function RectanglePerimeter(length: Num, width: Num): Num {
    Mul(Fin(2.0), Add(length, width))
  }

  function RectangleDiagonal(m: MathLib, length: Num, width: Num): Num {
    Sqrt(m, Add(Mul(length, length), Mul(width, width)))
  }

  // Trapezium, parallelogram, rhombus

  function TrapeziumArea(a: Num, b: Num, height: Num): Num {
    Mul(Div(Add(a, b), Fin(2.0)), height)
  }

  /** The angle is in degrees and converted to radians before `Math.sin`. */
  function ParallelogramArea(m: MathLib, side1: Num, side2: Num, angle: Num): Num {
    Mul(Mul(side1, side2), Sin(m, Mul(angle, Div(Pi(m), Fin(180.0)))))
  }

  function ParallelogramPerimeter(side1: Num, side2: Num): Num {
    Mul(Fin(2.0), Add(side1, side2))
  }

  function RhombusArea(d1: Num, d2: Num): Num {
    Div(Mul(d1, d2), Fin(2.0))
  }

  /** The radicand shared by the rhombus side and perimeter. */
  function RhombusHalfDiagonals(d1: Num, d2: Num): Num {
    Div(Add(Mul(d1, d1), Mul(d2, d2)), Fin(4.0))
  }

  function RhombusPerimeter(m: MathLib, d1: Num, d2: Num): Num {
    Mul(Fin(4.0), Sqrt(m, RhombusHalfDiagonals(d1, d2)))
  }

  function RhombusSideLength(m: MathLib, d1: Num, d2: Num): Num {
    Sqrt(m, RhombusHalfDiagonals(d1, d2))
  }

  // Regular polygon with n sides

  function PolygonArea(m: MathLib, side: Num, n: Num): Num {
    Div(Mul(Mul(n, side), side), Mul(Fin(4.0), Tan(m, Div(Pi(m), n))))
  }

  function PolygonPerimeter(side: Num, n: Num): Num {
    Mul(n, side)
  }

  function InnerAngle(n: Num): Num {
    Div(Mul(Sub(n, Fin(2.0)), Fin(180.0)), n)
  }

  function OuterAngle(n: Num): Num {
    Div(Fin(360.0), n)
  }

  // Triangles

  function EquilateralArea(m: MathLib, side: Num): Num {
    Mul(Mul(Div(Sqrt(m, Fin(3.0)), Fin(4.0)), side), side)
  }

  function EquilateralPerimeter(side: Num): Num {
    Mul(Fin(3.0), side)
  }

  function IsoscelesArea(base: Num, height: Num): Num {
    Div(Mul(base, height), Fin(2.0))
  }

  function IsoscelesPerimeter(base: Num, equalSide: Num): Num {
    Add(base, Mul(Fin(2.0), equalSide))
  }

  /** Heron's product s(s-a)(s-b)(s-c) with s the half perimeter: the
      square of the area, negative when no triangle has these sides. */
  function HeronProduct(a: Num, b: Num, c: Num): Num {
    var s := Div(Add(Add(a, b), c), Fin(2.0));
    Mul(Mul(Mul(s, Sub(s, a)), Sub(s, b)), Sub(s, c))
  }

  function ScaleneArea(m: MathLib, a: Num, b: Num, c: Num): Num {
    Sqrt(m, HeronProduct(a, b, c))
  }

  function ScalenePerimeter(a: Num, b: Num, c: Num): Num {
    Add(Add(a, b), c)
  }

  function RightArea(base: Num, height: Num): Num {
    Div(Mul(base, height), Fin(2.0))
  }

  function RightPerimeter(base: Num, height: Num, hypotenuse: Num): Num {
    Add(Add(base, height), hypotenuse)
  }

  function RightHypotenuse(m: MathLib, base: Num, height: Num): Num {
    Sqrt(m, Add(Mul(base, base), Mul(height, height)))
  }

  // Solids

  function CubeVolume(side: Num): Num {
    Mul(Mul(side, side), side)
  }

  function CubeSurfaceArea(side: Num): Num {
    Mul(Mul(Fin(6.0), side), side)
  }

  function CubeDiagonal(m: MathLib, side: Num): Num {
    Mul(side, Sqrt(m, Fin(3.0)))
  }

  function BoxVolume(length: Num, width: Num, height: Num): Num {
    Mul(Mul(length, width), height)
  }

  function BoxSurfaceArea(length: Num, width: Num, height: Num): Num {
    Mul(Fin(2.0), Add(Add(Mul(length, width), Mul(width, height)), Mul(height, length)))
  }

  function BoxDiagonal(m: MathLib, length: Num, width: Num, height: Num): Num {
    Sqrt(m, Add(Add(Mul(length, length), Mul(width, width)), Mul(height, height)))
  }

  function SphereVolume(m: MathLib, radius: Num): Num {
    Mul(Mul(Mul(Mul(Div(Fin(4.0), Fin(3.0)), Pi(m)), radius), radius), radius)
  }

  function SphereSurfaceArea(m: MathLib, radius: Num): Num {
    Mul(Mul(Mul(Fin(4.0), Pi(m)), radius), radius)
  }

  function CylinderVolume(m: MathLib, radius: Num, height: Num): Num {
    Mul(Mul(Mul(Pi(m), radius), radius), height)
  }

  function CylinderSurfaceArea(m: MathLib, radius: Num, height: Num): Num {
    Add(Mul(Mul(Mul(Fin(2.0), Pi(m)), radius), height),
        Mul(Mul(Mul(Fin(2.0), Pi(m)), radius), radius))
  }

  function ConeVolume(m: MathLib, radius: Num, height: Num): Num {
    Mul(Mul(Mul(Mul(Div(Fin(1.0), Fin(3.0)), Pi(m)), radius), radius), height)
  }

  function ConeSurfaceArea(m: MathLib, radius: Num, height: Num): Num {
    var slantHeight := Sqrt(m, Add(Mul(radius, radius), Mul(height, height)));
    Mul(Mul(Pi(m), radius), Add(radius, slantHeight))
  }

  function PrismVolume(m: MathLib, side: Num, n: Num, height: Num): Num {
    Mul(PolygonArea(m, side, n), height)
  }

  function PrismSurfaceArea(m: MathLib, side: Num, n: Num, height: Num): Num {
    Add(Mul(Fin(2.0), PolygonArea(m, side, n)), Mul(PolygonPerimeter(side, n), height))
  }

  function PyramidVolume(m: MathLib, side: Num, n: Num, height: Num): Num {
    Div(Mul(PolygonArea(m, side, n), height), Fin(3.0))
  }
}
