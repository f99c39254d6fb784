/** Behaviour of the dispatcher that follows from how its cases call the
    formulas rather than from the formulas themselves. */
module Quirks {
  import opened Numbers
  import opened Geometry
  import opened Formulas
  import opened Dispatch
  import opened Catalog
  import opened Agreement
  import opened Form
  import opened Wrappers

  /** A name that is no entry's name matches no case of the switch. */
  lemma UnknownNameGivesNoResults(m: MathLib, parse: string -> Num, name: string, a: map<string, string>)
    requires forall id :: Name(id) != name
    ensures Compute(m, parse, name, a) == map[]
  {
    NotACaseLabel(name);
    NoCaseMatches(m, parse, name, a);
  }

  /** Calculate on a shape outside the catalog, with valid entries,
      hands the page an empty result map and clears the error. */
  lemma UnknownShapeEmitsNoResults(m: MathLib, parse: string -> Num, shape: Shape, form: FormState)
    requires forall id :: Name(id) != shape.name
    requires forall l :: l in form.inputs ==> Positive(parse(form.inputs[l]))
    ensures HandleCalculate(m, parse, shape, form) == Submission(form.(error := ""), Some(map[]))
  {
    UnknownNameGivesNoResults(m, parse, shape.name, form.inputs);
  }

  /** A name that is no entry's name is none of the switch's labels. */
  lemma NotACaseLabel(name: string)
    requires forall id :: Name(id) != name
    ensures name !in CaseLabels
  {
    assert Name(Circle) != name && Name(Ellipse) != name && Name(Square) != name;
    assert Name(Rectangle) != name && Name(Trapezium) != name && Name(Parallelogram) != name;
    assert Name(Rhombus) != name && Name(RegularPolygon) != name;
    assert Name(EquilateralTriangle) != name && Name(IsoscelesTriangle) != name;
    assert Name(ScaleneTriangle) != name && Name(RightTriangle) != name;
    assert Name(Cube) != name && Name(Box) != name && Name(Sphere) != name;
    assert Name(Cylinder) != name && Name(Cone) != name;
    assert Name(RegularPrism) != name && Name(RegularPyramid) != name;
  }

  /** Every entry's name produces at least one result. */
  lemma CatalogNameGivesResults(m: MathLib, parse: string -> Num, id: ShapeId, a: map<string, string>)
    ensures Compute(m, parse, Definition(id).name, a) != map[]
  {
    ResultsAsPromised(m, parse, id, a);
    HasCalculations(id);
    var c := Definition(id).calculations[0];
    var k :| k in ResultLabels(c);
    assert k in PromisedLabels(Definition(id).calculations);
  }

  /** The switch produces results exactly for the catalog's names. */
  lemma OnlyCatalogNamesGiveResults(m: MathLib, parse: string -> Num, name: string, a: map<string, string>)
    ensures Compute(m, parse, name, a) == map[] <==> forall id :: Definition(id).name != name
  {
    if forall id :: Definition(id).name != name {
      forall id
        ensures Name(id) != name
      {
        NameOfEntry(id);
      }
      UnknownNameGivesNoResults(m, parse, name, a);
    } else {
      var id :| Definition(id).name == name;
      CatalogNameGivesResults(m, parse, id, a);
    }
  }

  /** The parallelogram's area call supplies no angle. */
  lemma ParallelogramAreaIsNaN(m: MathLib, parse: string -> Num, a: map<string, string>)
    ensures var r := Compute(m, parse, ParallelogramShape.name, a);
      "Area" in r && r["Area"].value == NaN
  {
    ParallelogramDispatched(m, parse, a);
  }

  /** The rhombus perimeter call supplies only one of two diagonals. */
  lemma RhombusPerimeterIsNaN(m: MathLib, parse: string -> Num, a: map<string, string>)
    ensures var r := Compute(m, parse, RhombusShape.name, a);
      "Perimeter" in r && r["Perimeter"].value == NaN
  {
    RhombusDispatched(m, parse, a);
  }

  /** The prism calls supply two of three arguments. */
  lemma RegularPrismIsNaN(m: MathLib, parse: string -> Num, a: map<string, string>)
    ensures var r := Compute(m, parse, RegularPrismShape.name, a);
      && "Volume" in r && r["Volume"].value == NaN
      && "Surface Area" in r && r["Surface Area"].value == NaN
  {
    RegularPrismDispatched(m, parse, a);
  }

  /** The pyramid call supplies two of three arguments. */
  lemma RegularPyramidIsNaN(m: MathLib, parse: string -> Num, a: map<string, string>)
    ensures var r := Compute(m, parse, RegularPyramidShape.name, a);
      "Volume" in r && r["Volume"].value == NaN
  {
    RegularPyramidDispatched(m, parse, a);
  }

  /** The right triangle's hypotenuse is computed from base and height,
      the perimeter adds that same value, and a "Hypotenuse" the user
      entered changes nothing. */
  lemma RightTriangleComputesHypotenuse(m: MathLib, parse: string -> Num, a: map<string, string>, entered: string)
    ensures var r := Compute(m, parse, RightTriangleShape.name, a);
      var base, height := Read(parse, a, "Base"), Read(parse, a, "Height");
      && "Hypotenuse" in r && "Perimeter" in r
      && r["Hypotenuse"].value == RightHypotenuse(m, base, height)
      && r["Perimeter"].value == RightPerimeter(base, height, r["Hypotenuse"].value)
    ensures Compute(m, parse, RightTriangleShape.name, a["Hypotenuse" := entered])
         == Compute(m, parse, RightTriangleShape.name, a)
  {
    RightTriangleDispatched(m, parse, a);
    RightTriangleDispatched(m, parse, a["Hypotenuse" := entered]);
    assert Read(parse, a["Hypotenuse" := entered], "Base") == Read(parse, a, "Base");
    assert Read(parse, a["Hypotenuse" := entered], "Height") == Read(parse, a, "Height");
  }

  /** The rhombus form shows a "Side" field whose value no result uses. */
  lemma RhombusIgnoresSide(m: MathLib, parse: string -> Num, a: map<string, string>, entered: string)
    ensures Compute(m, parse, RhombusShape.name, a["Side" := entered])
         == Compute(m, parse, RhombusShape.name, a)
  {
    RhombusDispatched(m, parse, a);
    RhombusDispatched(m, parse, a["Side" := entered]);
    assert Read(parse, a["Side" := entered], "Diagonal 1") == Read(parse, a, "Diagonal 1");
    assert Read(parse, a["Side" := entered], "Diagonal 2") == Read(parse, a, "Diagonal 2");
  }

  /** The entered "Hypotenuse" reaches no result, but validation checks
      it like every other entry: a zero, negative or unparsable one
      blocks all of the right triangle's results. */
  lemma EnteredHypotenuseIsValidated(m: MathLib, parse: string -> Num, form: FormState)
    requires "Hypotenuse" in form.inputs && !Positive(parse(form.inputs["Hypotenuse"]))
    ensures HandleCalculate(m, parse, RightTriangleShape, form).emitted.None?
    ensures HandleCalculate(m, parse, RightTriangleShape, form).form.error in {InvalidNumberMessage, NonPositiveMessage}
  {
  }

  /** Likewise the rhombus "Side" entry: no result reads it, yet a zero,
      negative or unparsable one blocks all of the rhombus's results. */
  lemma EnteredSideIsValidated(m: MathLib, parse: string -> Num, form: FormState)
    requires "Side" in form.inputs && !Positive(parse(form.inputs["Side"]))
    ensures HandleCalculate(m, parse, RhombusShape, form).emitted.None?
    ensures HandleCalculate(m, parse, RhombusShape, form).form.error in {InvalidNumberMessage, NonPositiveMessage}
  {
  }
}
