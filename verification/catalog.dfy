/** The static shape catalog of the application page: nineteen shape
    definitions, twelve two-dimensional and seven three-dimensional, in
    display order. */
module Catalog {
  import opened Geometry

  /** One tag per catalog entry, so that facts about the table can be
      proved entry by entry. */
  datatype ShapeId =
    | Circle | Ellipse | Square | Rectangle | Trapezium | Parallelogram
    | Rhombus | RegularPolygon | EquilateralTriangle | IsoscelesTriangle
    | ScaleneTriangle | RightTriangle
    | Cube | Box | Sphere | Cylinder | Cone | RegularPrism | RegularPyramid

  /** The catalog order of the entries. */
  const Order: seq<ShapeId> := [
    Circle, Ellipse, Square, Rectangle, Trapezium, Parallelogram,
    Rhombus, RegularPolygon, EquilateralTriangle, IsoscelesTriangle,
    ScaleneTriangle, RightTriangle,
    Cube, Box, Sphere, Cylinder, Cone, RegularPrism, RegularPyramid]

  /** The display name of an entry, which is also the key the
      calculation form switches on. */
  function Name(id: ShapeId): string {
    match id
    case Circle => "Circle"
    case Ellipse => "Ellipse"
    case Square => "Square"
    case Rectangle => "Rectangle"
    case Trapezium => "Trapezium"
    case Parallelogram => "Parallelogram"
    case Rhombus => "Rhombus"
    case RegularPolygon => "Regular Polygon"
    case EquilateralTriangle => "Equilateral Triangle"
    case IsoscelesTriangle => "Isosceles Triangle"
    case ScaleneTriangle => "Scalene Triangle"
    case RightTriangle => "Right Triangle"
    case Cube => "Cube"
    case Box => "Box"
    case Sphere => "Sphere"
    case Cylinder => "Cylinder"
    case Cone => "Cone"
    case RegularPrism => "Regular Prism"
    case RegularPyramid => "Regular Pyramid"
  }

  // The input fields of the catalog. A field that several entries or
  // calculations share is written once here.
  const RadiusField := InputSpec("Radius", NumberField, "Enter radius")
  const SemiMajorField := InputSpec("Semi-major axis (a)", NumberField, "Enter a")
  const SemiMinorField := InputSpec("Semi-minor axis (b)", NumberField, "Enter b")
  const SideLengthField := InputSpec("Side length", NumberField, "Enter side length")
  const LengthField := InputSpec("Length", NumberField, "Enter length")
  const WidthField := InputSpec("Width", NumberField, "Enter width")
  const HeightField := InputSpec("Height", NumberField, "Enter height")
  const Base1Field := InputSpec("Base 1", NumberField, "Enter first base")
  const Base2Field := InputSpec("Base 2", NumberField, "Enter second base")
  const BaseField := InputSpec("Base", NumberField, "Enter base")
  const SideField := InputSpec("Side", NumberField, "Enter side length")
  const Diagonal1Field := InputSpec("Diagonal 1", NumberField, "Enter first diagonal")
  const Diagonal2Field := InputSpec("Diagonal 2", NumberField, "Enter second diagonal")
  const SidesCountField := InputSpec("Number of sides", NumberField, "Enter number of sides")
  const EqualSideField := InputSpec("Equal side", NumberField, "Enter equal side length")
  const SideAField := InputSpec("Side a", NumberField, "Enter first side")
  const SideBField := InputSpec("Side b", NumberField, "Enter second side")
  const SideCField := InputSpec("Side c", NumberField, "Enter third side")
  const HypotenuseField := InputSpec("Hypotenuse", NumberField, "Enter hypotenuse")
  const BaseAreaField := InputSpec("Base area", NumberField, "Enter base area")
  const LateralAreaField := InputSpec("Lateral area", NumberField, "Enter lateral area")

  const CircleShape := Shape(Name(Circle), TwoD, ["Area", "Circumference"],
    map["Area" := [RadiusField], "Circumference" := [RadiusField]])

  const EllipseShape := Shape(Name(Ellipse), TwoD, ["Area"],
    map["Area" := [SemiMajorField, SemiMinorField]])

  const SquareShape := Shape(Name(Square), TwoD, ["Area", "Perimeter", "Diagonal"],
    map["Area" := [SideLengthField], "Perimeter" := [SideLengthField], "Diagonal" := [SideLengthField]])

  const RectangleShape := Shape(Name(Rectangle), TwoD, ["Area", "Perimeter", "Diagonal"],
    map["Area" := [LengthField, WidthField],
        "Perimeter" := [LengthField, WidthField],
        "Diagonal" := [LengthField, WidthField]])

  const TrapeziumShape := Shape(Name(Trapezium), TwoD, ["Area"],
    map["Area" := [Base1Field, Base2Field, HeightField]])

  const ParallelogramShape := Shape(Name(Parallelogram), TwoD, ["Area", "Perimeter"],
    map["Area" := [BaseField, HeightField], "Perimeter" := [BaseField, SideField]])

  const RhombusShape := Shape(Name(Rhombus), TwoD, ["Area", "Perimeter", "Side Length"],
    map["Area" := [Diagonal1Field, Diagonal2Field],
        "Perimeter" := [SideField],
        "Side Length" := [Diagonal1Field, Diagonal2Field]])

  const RegularPolygonShape := Shape(Name(RegularPolygon), TwoD, ["Area", "Perimeter", "Inner/Outer Angles"],
    map["Area" := [SideLengthField, SidesCountField],
        "Perimeter" := [SideLengthField, SidesCountField],
        "Inner/Outer Angles" := [SidesCountField]])

  const EquilateralTriangleShape := Shape(Name(EquilateralTriangle), TwoD, ["Area", "Perimeter"],
    map["Area" := [SideLengthField], "Perimeter" := [SideLengthField]])

  const IsoscelesTriangleShape := Shape(Name(IsoscelesTriangle), TwoD, ["Area", "Perimeter"],
    map["Area" := [BaseField, HeightField], "Perimeter" := [BaseField, EqualSideField]])

  const ScaleneTriangleShape := Shape(Name(ScaleneTriangle), TwoD, ["Area", "Perimeter"],
    map["Area" := [SideAField, SideBField, SideCField], "Perimeter" := [SideAField, SideBField, SideCField]])

  const RightTriangleShape := Shape(Name(RightTriangle), TwoD, ["Area", "Perimeter", "Hypotenuse"],
    map["Area" := [BaseField, HeightField],
        "Perimeter" := [BaseField, HeightField, HypotenuseField],
        "Hypotenuse" := [BaseField, HeightField]])

  const CubeShape := Shape(Name(Cube), ThreeD, ["Volume", "Surface Area", "Diagonal"],
    map["Volume" := [SideLengthField], "Surface Area" := [SideLengthField], "Diagonal" := [SideLengthField]])

  const BoxShape := Shape(Name(Box), ThreeD, ["Volume", "Surface Area", "Diagonal"],
    map["Volume" := [LengthField, WidthField, HeightField],
        "Surface Area" := [LengthField, WidthField, HeightField],
        "Diagonal" := [LengthField, WidthField, HeightField]])

  const SphereShape := Shape(Name(Sphere), ThreeD, ["Volume", "Surface Area"],
    map["Volume" := [RadiusField], "Surface Area" := [RadiusField]])

  const CylinderShape := Shape(Name(Cylinder), ThreeD, ["Volume", "Surface Area"],
    map["Volume" := [RadiusField, HeightField], "Surface Area" := [RadiusField, HeightField]])

  const ConeShape := Shape(Name(Cone), ThreeD, ["Volume", "Surface Area"],
    map["Volume" := [RadiusField, HeightField], "Surface Area" := [RadiusField, HeightField]])

  const RegularPrismShape := Shape(Name(RegularPrism), ThreeD, ["Volume", "Surface Area"],
    map["Volume" := [BaseAreaField, HeightField], "Surface Area" := [BaseAreaField, LateralAreaField]])

  const RegularPyramidShape := Shape(Name(RegularPyramid), ThreeD, ["Volume"],
    map["Volume" := [BaseAreaField, HeightField]])

  /** The definition of one catalog entry. */
  function Definition(id: ShapeId): Shape {
    match id
    case Circle => CircleShape
    case Ellipse => EllipseShape
    case Square => SquareShape
    case Rectangle => RectangleShape
    case Trapezium => TrapeziumShape
    case Parallelogram => ParallelogramShape
    case Rhombus => RhombusShape
    case RegularPolygon => RegularPolygonShape
    case EquilateralTriangle => EquilateralTriangleShape
    case IsoscelesTriangle => IsoscelesTriangleShape
    case ScaleneTriangle => ScaleneTriangleShape
    case RightTriangle => RightTriangleShape
    case Cube => CubeShape
    case Box => BoxShape
    case Sphere => SphereShape
    case Cylinder => CylinderShape
    case Cone => ConeShape
    case RegularPrism => RegularPrismShape
    case RegularPyramid => RegularPyramidShape
  }

  /** The `shapes` table, in catalog order. */
  const Shapes: seq<Shape> := seq(|Order|, i requires 0 <= i < |Order| => Definition(Order[i]))

  /** Where an entry sits in the catalog. */
  function Position(id: ShapeId): (i: nat)
    ensures i < |Order| && Order[i] == id
  {
    match id
    case Circle => 0 case Ellipse => 1 case Square => 2 case Rectangle => 3
    case Trapezium => 4 case Parallelogram => 5 case Rhombus => 6
    case RegularPolygon => 7 case EquilateralTriangle => 8
    case IsoscelesTriangle => 9 case ScaleneTriangle => 10
    case RightTriangle => 11 case Cube => 12 case Box => 13 case Sphere => 14
    case Cylinder => 15 case Cone => 16 case RegularPrism => 17
    case RegularPyramid => 18
  }

  lemma OrderIsPermutation()
    ensures |Order| == 19
    ensures forall i :: 0 <= i < |Order| ==> Position(Order[i]) == i
  {
  }

  /** An entry's definition carries the entry's name. */
  lemma NameOfEntry(id: ShapeId)
    ensures Definition(id).name == Name(id)
  {
  }

  /** Different entries have different names. */
  lemma NamesDiffer(id1: ShapeId, id2: ShapeId)
    requires id1 != id2
    ensures Name(id1) != Name(id2)
  {
  }

  /** No two shapes of the table share a name. */
  lemma NamesAreDistinct()
    ensures forall i, j :: 0 <= i < j < |Shapes| ==> Shapes[i].name != Shapes[j].name
  {
    OrderIsPermutation();
    forall i, j | 0 <= i < j < |Shapes|
      ensures Shapes[i].name != Shapes[j].name
    {
      NameOfEntry(Order[i]);
      NameOfEntry(Order[j]);
      NamesDiffer(Order[i], Order[j]);
    }
  }

  /** Every entry offers at least one calculation. */
  lemma HasCalculations(id: ShapeId)
    ensures |Definition(id).calculations| > 0
  {
  }

  /** The twelve two-dimensional entries come first. */
  lemma CategoryByPosition(id: ShapeId)
    ensures Definition(id).category == (if Position(id) < 12 then TwoD else ThreeD)
  {
  }
}
