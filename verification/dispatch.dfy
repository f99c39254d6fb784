/** The dispatcher of the calculation form: a switch on the shape name
    that reads the entered values by label, calls the formulas, and files
    each value under a result label with its unit. */
module Dispatch {
  import opened Numbers
  import opened Geometry
  import opened Formulas

  /** `Number(inputs[fieldName])`: the parsed entry, or NaN for a label
      that was never entered (`Number(undefined)`). */
  function Read(parse: string -> Num, inputs: map<string, string>, fieldName: string): Num {
    if fieldName in inputs then parse(inputs[fieldName]) else NaN
  }

  function CircleResults(m: MathLib, parse: string -> Num, inputs: map<string, string>): Results {
    var radius := Read(parse, inputs, "Radius");
    map["Area" := CalculationResult(CircleArea(m, radius), SquareUnits),
        "Circumference" := CalculationResult(CircleCircumference(m, radius), Units)]
  }

  function EllipseResults(m: MathLib, parse: string -> Num, inputs: map<string, string>): Results {
    var a := Read(parse, inputs, "Semi-major axis (a)");
    var b := Read(parse, inputs, "Semi-minor axis (b)");
    map["Area" := CalculationResult(EllipseArea(m, a, b), SquareUnits)]
  }

  function SquareResults(m: MathLib, parse: string -> Num, inputs: map<string, string>): Results {
    var side := Read(parse, inputs, "Side length");
    map["Area" := CalculationResult(SquareArea(side), SquareUnits),
        "Perimeter" := CalculationResult(SquarePerimeter(side), Units),
        "Diagonal" := CalculationResult(SquareDiagonal(m, side), Units)]
  }

  function RectangleResults(m: MathLib, parse: string -> Num, inputs: map<string, string>): Results {
    var length := Read(parse, inputs, "Length");
    var width := Read(parse, inputs, "Width");
    map["Area" := CalculationResult(RectangleArea(length, width), SquareUnits),
        "Perimeter" := CalculationResult(RectanglePerimeter(length, width), Units),
        "Diagonal" := CalculationResult(RectangleDiagonal(m, length, width), Units)]
  }

  function TrapeziumResults(parse: string -> Num, inputs: map<string, string>): Results {
    var base1 := Read(parse, inputs, "Base 1");
    var base2 := Read(parse, inputs, "Base 2");
    var height := Read(parse, inputs, "Height");
    map["Area" := CalculationResult(TrapeziumArea(base1, base2, height), SquareUnits)]
  }

  /** The area call passes base and height but no angle, so the angle is
      `undefined` and the area is NaN whatever was entered. */
  function ParallelogramResults(m: MathLib, parse: string -> Num, inputs: map<string, string>): Results {
    var base := Read(parse, inputs, "Base");
    var side := Read(parse, inputs, "Side");
    var height := Read(parse, inputs, "Height");
    map["Area" := CalculationResult(ParallelogramArea(m, base, height, Undefined), SquareUnits),
        "Perimeter" := CalculationResult(ParallelogramPerimeter(base, side), Units)]
  }

  /** The perimeter call passes the computed side length as the first
      diagonal and no second diagonal, so the perimeter is NaN. */
  function RhombusResults(m: MathLib, parse: string -> Num, inputs: map<string, string>): Results {
    var d1 := Read(parse, inputs, "Diagonal 1");
    var d2 := Read(parse, inputs, "Diagonal 2");
    var sideLength := RhombusSideLength(m, d1, d2);
    map["Area" := CalculationResult(RhombusArea(d1, d2), SquareUnits),
        "Side Length" := CalculationResult(sideLength, Units),
        "Perimeter" := CalculationResult(RhombusPerimeter(m, sideLength, Undefined), Units)]
  }

  function RegularPolygonResults(m: MathLib, parse: string -> Num, inputs: map<string, string>): Results {
    var side := Read(parse, inputs, "Side length");
    var n := Read(parse, inputs, "Number of sides");
    map["Area" := CalculationResult(PolygonArea(m, side, n), SquareUnits),
        "Perimeter" := CalculationResult(PolygonPerimeter(side, n), Units),
        "Inner Angle" := CalculationResult(InnerAngle(n), Degrees),
        "Outer Angle" := CalculationResult(OuterAngle(n), Degrees)]
  }

  function EquilateralTriangleResults(m: MathLib, parse: string -> Num, inputs: map<string, string>): Results {
    var side := Read(parse, inputs, "Side length");
    map["Area" := CalculationResult(EquilateralArea(m, side), SquareUnits),
        "Perimeter" := CalculationResult(EquilateralPerimeter(side), Units)]
  }

  function IsoscelesTriangleResults(parse: string -> Num, inputs: map<string, string>): Results {
    var base := Read(parse, inputs, "Base");
    var height := Read(parse, inputs, "Height");
    var equalSide := Read(parse, inputs, "Equal side");
    map["Area" := CalculationResult(IsoscelesArea(base, height), SquareUnits),
        "Perimeter" := CalculationResult(IsoscelesPerimeter(base, equalSide), Units)]
  }

  function ScaleneTriangleResults(m: MathLib, parse: string -> Num, inputs: map<string, string>): Results {
    var a := Read(parse, inputs, "Side a");
    var b := Read(parse, inputs, "Side b");
    var c := Read(parse, inputs, "Side c");
    map["Area" := CalculationResult(ScaleneArea(m, a, b, c), SquareUnits),
        "Perimeter" := CalculationResult(ScalenePerimeter(a, b, c), Units)]
  }

  /** The hypotenuse is computed from base and height before the
      perimeter uses it; an entered "Hypotenuse" is never read. */
  function RightTriangleResults(m: MathLib, parse: string -> Num, inputs: map<string, string>): Results {
    var base := Read(parse, inputs, "Base");
    var height := Read(parse, inputs, "Height");
    var hypotenuse := RightHypotenuse(m, base, height);
    map["Area" := CalculationResult(RightArea(base, height), SquareUnits),
        "Perimeter" := CalculationResult(RightPerimeter(base, height, hypotenuse), Units),
        "Hypotenuse" := CalculationResult(hypotenuse, Units)]
  }

  function CubeResults(m: MathLib, parse: string -> Num, inputs: map<string, string>): Results {
    var side := Read(parse, inputs, "Side length");
    map["Volume" := CalculationResult(CubeVolume(side), CubicUnits),
        "Surface Area" := CalculationResult(CubeSurfaceArea(side), SquareUnits),
        "Diagonal" := CalculationResult(CubeDiagonal(m, side), Units)]
  }

  function BoxResults(m: MathLib, parse: string -> Num, inputs: map<string, string>): Results {
    var length := Read(parse, inputs, "Length");
    var width := Read(parse, inputs, "Width");
    var height := Read(parse, inputs, "Height");
    map["Volume" := CalculationResult(BoxVolume(length, width, height), CubicUnits),
        "Surface Area" := CalculationResult(BoxSurfaceArea(length, width, height), SquareUnits),
        "Diagonal" := CalculationResult(BoxDiagonal(m, length, width, height), Units)]
  }

  function SphereResults(m: MathLib, parse: string -> Num, inputs: map<string, string>): Results {
    var radius := Read(parse, inputs, "Radius");
    map["Volume" := CalculationResult(SphereVolume(m, radius), CubicUnits),
        "Surface Area" := CalculationResult(SphereSurfaceArea(m, radius), SquareUnits)]
  }

  function CylinderResults(m: MathLib, parse: string -> Num, inputs: map<string, string>): Results {
    var radius := Read(parse, inputs, "Radius");
    var height := Read(parse, inputs, "Height");
    map["Volume" := CalculationResult(CylinderVolume(m, radius, height), CubicUnits),
        "Surface Area" := CalculationResult(CylinderSurfaceArea(m, radius, height), SquareUnits)]
  }

  function ConeResults(m: MathLib, parse: string -> Num, inputs: map<string, string>): Results {
    var radius := Read(parse, inputs, "Radius");
    var height := Read(parse, inputs, "Height");
    map["Volume" := CalculationResult(ConeVolume(m, radius, height), CubicUnits),
        "Surface Area" := CalculationResult(ConeSurfaceArea(m, radius, height), SquareUnits)]
  }

  /** Both calls pass two arguments to formulas of three (side, side
      count, height): the base area is taken as the side, the second
      value as the side count, and the height is `undefined`, so both
      results are NaN. */
  function RegularPrismResults(m: MathLib, parse: string -> Num, inputs: map<string, string>): Results {
    var baseArea := Read(parse, inputs, "Base area");
    var height := Read(parse, inputs, "Height");
    var lateralArea := Read(parse, inputs, "Lateral area");
    map["Volume" := CalculationResult(PrismVolume(m, baseArea, height, Undefined), CubicUnits),
        "Surface Area" := CalculationResult(PrismSurfaceArea(m, baseArea, lateralArea, Undefined), SquareUnits)]
  }

  /** Like the prism volume: the height is `undefined`, the result NaN. */
  function RegularPyramidResults(m: MathLib, parse: string -> Num, inputs: map<string, string>): Results {
    var baseArea := Read(parse, inputs, "Base area");
    var height := Read(parse, inputs, "Height");
    map["Volume" := CalculationResult(PyramidVolume(m, baseArea, height, Undefined), CubicUnits)]
  }

  /** The `switch (shape.name)`: a name no case matches produces no
      results at all. */
  function Compute(m: MathLib, parse: string -> Num, name: string, inputs: map<string, string>): Results {
    if name == "Circle" then CircleResults(m, parse, inputs)
    else if name == "Ellipse" then EllipseResults(m, parse, inputs)
    else if name == "Square" then SquareResults(m, parse, inputs)
    else if name == "Rectangle" then RectangleResults(m, parse, inputs)
    else if name == "Trapezium" then TrapeziumResults(parse, inputs)
    else if name == "Parallelogram" then ParallelogramResults(m, parse, inputs)
    else if name == "Rhombus" then RhombusResults(m, parse, inputs)
    else if name == "Regular Polygon" then RegularPolygonResults(m, parse, inputs)
    else if name == "Equilateral Triangle" then EquilateralTriangleResults(m, parse, inputs)
    else if name == "Isosceles Triangle" then IsoscelesTriangleResults(parse, inputs)
    else if name == "Scalene Triangle" then ScaleneTriangleResults(m, parse, inputs)
    else if name == "Right Triangle" then RightTriangleResults(m, parse, inputs)
    else if name == "Cube" then CubeResults(m, parse, inputs)
    else if name == "Box" then BoxResults(m, parse, inputs)
    else if name == "Sphere" then SphereResults(m, parse, inputs)
    else if name == "Cylinder" then CylinderResults(m, parse, inputs)
    else if name == "Cone" then ConeResults(m, parse, inputs)
    else if name == "Regular Prism" then RegularPrismResults(m, parse, inputs)
    else if name == "Regular Pyramid" then RegularPyramidResults(m, parse, inputs)
    else map[]
  }

  /** The labels of the switch's cases. */
  const CaseLabels: set<string> := {
    "Circle", "Ellipse", "Square", "Rectangle", "Trapezium", "Parallelogram",
    "Rhombus", "Regular Polygon", "Equilateral Triangle", "Isosceles Triangle",
    "Scalene Triangle", "Right Triangle", "Cube", "Box", "Sphere", "Cylinder",
    "Cone", "Regular Prism", "Regular Pyramid"}

  /** A name outside the case labels falls through the switch: the
      results stay empty. */
  lemma NoCaseMatches(m: MathLib, parse: string -> Num, name: string, inputs: map<string, string>)
    requires name !in CaseLabels
    ensures Compute(m, parse, name, inputs) == map[]
  {
  }
}
