/** How the catalog and the dispatcher fit together: each catalog entry
    is well formed, the dispatcher answers its name with exactly the
    results its calculations promise, each in the unit fixed for its
    label, and reads no field the form does not show. */
module Agreement {
  import opened Numbers
  import opened Geometry
  import opened FormInputs
  import opened Dispatch
  import opened Catalog

  /** The result labels a calculation produces: "Inner/Outer Angles"
      yields two results, every other calculation one of its own name. */
  function ResultLabels(calculation: string): (r: set<string>)
    ensures r != {}
  {
    if calculation == "Inner/Outer Angles" then {"Inner Angle", "Outer Angle"} else {calculation}
  }

  /** The result labels a list of calculations promises. */
  function PromisedLabels(calculations: seq<string>): (r: set<string>)
    ensures forall k :: k in r <==> exists i :: 0 <= i < |calculations| && k in ResultLabels(calculations[i])
  {
    if calculations == [] then {}
    else
      var rest := PromisedLabels(calculations[1..]);
      assert forall i :: 1 <= i < |calculations| ==> calculations[i] == calculations[1..][i - 1];
      ResultLabels(calculations[0]) + rest
  }

  /** The unit that goes with a result label. */
  function UnitOf(resultLabel: string): string {
    if resultLabel == "Area" || resultLabel == "Surface Area" then SquareUnits
    else if resultLabel == "Volume" then CubicUnits
    else if resultLabel == "Inner Angle" || resultLabel == "Outer Angle" then Degrees
    else Units
  }

  predicate UnitsFixed(r: Results) {
    forall k :: k in r ==> r[k].unit == UnitOf(k)
  }

  /** Every value of the results is NaN. */
  predicate AllNaN(r: Results) {
    forall k :: k in r ==> r[k].value == NaN
  }

  /** Two sets of entries that read the same under every label in
      `labels`. */
  predicate ReadAlike(parse: string -> Num, a: map<string, string>, b: map<string, string>, labels: seq<string>) {
    forall l :: l in labels ==> Read(parse, a, l) == Read(parse, b, l)
  }

  /** Every catalog entry is well formed. */
  lemma EntryIsWellFormed(id: ShapeId)
    ensures WellFormed(Definition(id)) && HasAllInputLists(Definition(id))
  {
    match id
    case Circle => CircleWellFormed();
    case Ellipse => EllipseWellFormed();
    case Square => SquareWellFormed();
    case Rectangle => RectangleWellFormed();
    case Trapezium => TrapeziumWellFormed();
    case Parallelogram => ParallelogramWellFormed();
    case Rhombus => RhombusWellFormed();
    case RegularPolygon => RegularPolygonWellFormed();
    case EquilateralTriangle => EquilateralTriangleWellFormed();
    case IsoscelesTriangle => IsoscelesTriangleWellFormed();
    case ScaleneTriangle => ScaleneTriangleWellFormed();
    case RightTriangle => RightTriangleWellFormed();
    case Cube => CubeWellFormed();
    case Box => BoxWellFormed();
    case Sphere => SphereWellFormed();
    case Cylinder => CylinderWellFormed();
    case Cone => ConeWellFormed();
    case RegularPrism => RegularPrismWellFormed();
    case RegularPyramid => RegularPyramidWellFormed();
  }

  /** The labels of an entry's input lists, with repetitions, in the order
      the form collects them. */
  function ShownLabels(id: ShapeId): seq<string> {
    EntryIsWellFormed(id);
    AllLabels(Definition(id))
  }

  /** For every catalog entry the dispatcher produces exactly the results
      the entry's calculations promise, each in the unit of its label. */
  lemma ResultsAsPromised(m: MathLib, parse: string -> Num, id: ShapeId, a: map<string, string>)
    ensures Compute(m, parse, Definition(id).name, a).Keys == PromisedLabels(Definition(id).calculations)
    ensures UnitsFixed(Compute(m, parse, Definition(id).name, a))
  {
    EntryAgrees(m, parse, id, a, a);
  }

  /** The dispatcher reads only labels the form shows for the entry: two
      sets of entries that read alike on those labels give the same
      results. */
  lemma ReadsOnlyShownFields(m: MathLib, parse: string -> Num, id: ShapeId, a: map<string, string>, b: map<string, string>)
    requires ReadAlike(parse, a, b, ShownLabels(id))
    ensures Compute(m, parse, Definition(id).name, a) == Compute(m, parse, Definition(id).name, b)
  {
    EntryAgrees(m, parse, id, a, b);
  }

  /** With no entries at all (a state `Form.EmptyFormPasses` shows
      validation lets through) the switch yields only NaN values. */
  lemma BlankFormGivesNaN(m: MathLib, parse: string -> Num, id: ShapeId)
    ensures AllNaN(Compute(m, parse, Definition(id).name, map[]))
  {
    EntryAgrees(m, parse, id, map[], map[]);
  }

  lemma EntryAgrees(m: MathLib, parse: string -> Num, id: ShapeId, a: map<string, string>, b: map<string, string>)
    ensures Compute(m, parse, Definition(id).name, a).Keys == PromisedLabels(Definition(id).calculations)
    ensures UnitsFixed(Compute(m, parse, Definition(id).name, a))
    ensures ReadAlike(parse, a, b, ShownLabels(id)) ==>
      Compute(m, parse, Definition(id).name, a) == Compute(m, parse, Definition(id).name, b)
    ensures AllNaN(Compute(m, parse, Definition(id).name, map[]))
  {
    match id
    case Circle => CircleAgrees(m, parse, id, a, b);
    case Ellipse => EllipseAgrees(m, parse, id, a, b);
    case Square => SquareAgrees(m, parse, id, a, b);
    case Rectangle => RectangleAgrees(m, parse, id, a, b);
    case Trapezium => TrapeziumAgrees(m, parse, id, a, b);
    case Parallelogram => ParallelogramAgrees(m, parse, id, a, b);
    case Rhombus => RhombusAgrees(m, parse, id, a, b);
    case RegularPolygon => RegularPolygonAgrees(m, parse, id, a, b);
    case EquilateralTriangle => EquilateralTriangleAgrees(m, parse, id, a, b);
    case IsoscelesTriangle => IsoscelesTriangleAgrees(m, parse, id, a, b);
    case ScaleneTriangle => ScaleneTriangleAgrees(m, parse, id, a, b);
    case RightTriangle => RightTriangleAgrees(m, parse, id, a, b);
    case Cube => CubeAgrees(m, parse, id, a, b);
    case Box => BoxAgrees(m, parse, id, a, b);
    case Sphere => SphereAgrees(m, parse, id, a, b);
    case Cylinder => CylinderAgrees(m, parse, id, a, b);
    case Cone => ConeAgrees(m, parse, id, a, b);
    case RegularPrism => RegularPrismAgrees(m, parse, id, a, b);
    case RegularPyramid => RegularPyramidAgrees(m, parse, id, a, b);
  }

  // Per-entry facts. Each is its own lemma so that the solver unfolds
  // one case of the switch, or one catalog entry, at a time; the Agrees
  // lemma of an entry combines them.

  // Circle

  lemma CircleWellFormed()
    ensures WellFormed(CircleShape) && HasAllInputLists(CircleShape)
  {
    ConsistentWhenDrawnFrom(CircleShape, [RadiusField]);
  }

  lemma CircleDispatched(m: MathLib, parse: string -> Num, a: map<string, string>)
    ensures Compute(m, parse, CircleShape.name, a) == CircleResults(m, parse, a)
  {
  }

  lemma CirclePromises()
    ensures PromisedLabels(CircleShape.calculations) == {"Area", "Circumference"}
  {
  }

  lemma CircleDelivers(m: MathLib, parse: string -> Num, a: map<string, string>)
    ensures CircleResults(m, parse, a).Keys == {"Area", "Circumference"}
    ensures UnitsFixed(CircleResults(m, parse, a))
  {
  }

  lemma CircleBlankIsNaN(m: MathLib, parse: string -> Num)
    ensures AllNaN(CircleResults(m, parse, map[]))
  {
  }

  lemma CircleFrame(m: MathLib, parse: string -> Num, a: map<string, string>, b: map<string, string>)
    requires ReadAlike(parse, a, b, AllLabels(CircleShape))
    ensures CircleResults(m, parse, a) == CircleResults(m, parse, b)
  {
    ListedLabelIsShown(CircleShape, "Area", 0);
  }

  lemma CircleAgrees(m: MathLib, parse: string -> Num, id: ShapeId, a: map<string, string>, b: map<string, string>)
    requires id == Circle
    ensures Compute(m, parse, Definition(id).name, a).Keys == PromisedLabels(Definition(id).calculations)
    ensures UnitsFixed(Compute(m, parse, Definition(id).name, a))
    ensures ReadAlike(parse, a, b, ShownLabels(id)) ==>
      Compute(m, parse, Definition(id).name, a) == Compute(m, parse, Definition(id).name, b)
    ensures AllNaN(Compute(m, parse, Definition(id).name, map[]))
  {
    CircleDispatched(m, parse, map[]);
    CircleDispatched(m, parse, a);
    CircleDispatched(m, parse, b);
    CircleBlankIsNaN(m, parse);
    CirclePromises();
    CircleDelivers(m, parse, a);
    CircleWellFormed();
    if ReadAlike(parse, a, b, ShownLabels(id)) {
      CircleFrame(m, parse, a, b);
    }
  }

  // Ellipse

  lemma EllipseWellFormed()
    ensures WellFormed(EllipseShape) && HasAllInputLists(EllipseShape)
  {
    ConsistentWhenDrawnFrom(EllipseShape, [SemiMajorField, SemiMinorField]);
  }

  lemma EllipseDispatched(m: MathLib, parse: string -> Num, a: map<string, string>)
    ensures Compute(m, parse, EllipseShape.name, a) == EllipseResults(m, parse, a)
  {
  }

  lemma EllipsePromises()
    ensures PromisedLabels(EllipseShape.calculations) == {"Area"}
  {
  }

  lemma EllipseDelivers(m: MathLib, parse: string -> Num, a: map<string, string>)
    ensures EllipseResults(m, parse, a).Keys == {"Area"}
    ensures UnitsFixed(EllipseResults(m, parse, a))
  {
  }

  lemma EllipseBlankIsNaN(m: MathLib, parse: string -> Num)
    ensures AllNaN(EllipseResults(m, parse, map[]))
  {
  }

  lemma EllipseFrame(m: MathLib, parse: string -> Num, a: map<string, string>, b: map<string, string>)
    requires ReadAlike(parse, a, b, AllLabels(EllipseShape))
    ensures EllipseResults(m, parse, a) == EllipseResults(m, parse, b)
  {
    ListedLabelIsShown(EllipseShape, "Area", 0);
    ListedLabelIsShown(EllipseShape, "Area", 1);
  }

  lemma EllipseAgrees(m: MathLib, parse: string -> Num, id: ShapeId, a: map<string, string>, b: map<string, string>)
    requires id == Ellipse
    ensures Compute(m, parse, Definition(id).name, a).Keys == PromisedLabels(Definition(id).calculations)
    ensures UnitsFixed(Compute(m, parse, Definition(id).name, a))
    ensures ReadAlike(parse, a, b, ShownLabels(id)) ==>
      Compute(m, parse, Definition(id).name, a) == Compute(m, parse, Definition(id).name, b)
    ensures AllNaN(Compute(m, parse, Definition(id).name, map[]))
  {
    EllipseDispatched(m, parse, map[]);
    EllipseDispatched(m, parse, a);
    EllipseDispatched(m, parse, b);
    EllipseBlankIsNaN(m, parse);
    EllipsePromises();
    EllipseDelivers(m, parse, a);
    EllipseWellFormed();
    if ReadAlike(parse, a, b, ShownLabels(id)) {
      EllipseFrame(m, parse, a, b);
    }
  }

  // Square

  lemma SquareWellFormed()
    ensures WellFormed(SquareShape) && HasAllInputLists(SquareShape)
  {
    ConsistentWhenDrawnFrom(SquareShape, [SideLengthField]);
  }

  lemma SquareDispatched(m: MathLib, parse: string -> Num, a: map<string, string>)
    ensures Compute(m, parse, SquareShape.name, a) == SquareResults(m, parse, a)
  {
  }

  lemma SquarePromises()
    ensures PromisedLabels(SquareShape.calculations) == {"Area", "Perimeter", "Diagonal"}
  {
  }

  lemma SquareDelivers(m: MathLib, parse: string -> Num, a: map<string, string>)
    ensures SquareResults(m, parse, a).Keys == {"Area", "Perimeter", "Diagonal"}
    ensures UnitsFixed(SquareResults(m, parse, a))
  {
  }

  lemma SquareBlankIsNaN(m: MathLib, parse: string -> Num)
    ensures AllNaN(SquareResults(m, parse, map[]))
  {
  }

  lemma SquareFrame(m: MathLib, parse: string -> Num, a: map<string, string>, b: map<string, string>)
    requires ReadAlike(parse, a, b, AllLabels(SquareShape))
    ensures SquareResults(m, parse, a) == SquareResults(m, parse, b)
  {
    ListedLabelIsShown(SquareShape, "Area", 0);
  }

  lemma SquareAgrees(m: MathLib, parse: string -> Num, id: ShapeId, a: map<string, string>, b: map<string, string>)
    requires id == Square
    ensures Compute(m, parse, Definition(id).name, a).Keys == PromisedLabels(Definition(id).calculations)
    ensures UnitsFixed(Compute(m, parse, Definition(id).name, a))
    ensures ReadAlike(parse, a, b, ShownLabels(id)) ==>
      Compute(m, parse, Definition(id).name, a) == Compute(m, parse, Definition(id).name, b)
    ensures AllNaN(Compute(m, parse, Definition(id).name, map[]))
  {
    SquareDispatched(m, parse, map[]);
    SquareDispatched(m, parse, a);
    SquareDispatched(m, parse, b);
    SquareBlankIsNaN(m, parse);
    SquarePromises();
    SquareDelivers(m, parse, a);
    SquareWellFormed();
    if ReadAlike(parse, a, b, ShownLabels(id)) {
      SquareFrame(m, parse, a, b);
    }
  }

  // Rectangle

  lemma RectangleWellFormed()
    ensures WellFormed(RectangleShape) && HasAllInputLists(RectangleShape)
  {
    ConsistentWhenDrawnFrom(RectangleShape, [LengthField, WidthField]);
  }

  lemma RectangleDispatched(m: MathLib, parse: string -> Num, a: map<string, string>)
    ensures Compute(m, parse, RectangleShape.name, a) == RectangleResults(m, parse, a)
  {
  }

  lemma RectanglePromises()
    ensures PromisedLabels(RectangleShape.calculations) == {"Area", "Perimeter", "Diagonal"}
  {
  }

  lemma RectangleDelivers(m: MathLib, parse: string -> Num, a: map<string, string>)
    ensures RectangleResults(m, parse, a).Keys == {"Area", "Perimeter", "Diagonal"}
    ensures UnitsFixed(RectangleResults(m, parse, a))
  {
  }

  lemma RectangleBlankIsNaN(m: MathLib, parse: string -> Num)
    ensures AllNaN(RectangleResults(m, parse, map[]))
  {
  }

  lemma RectangleFrame(m: MathLib, parse: string -> Num, a: map<string, string>, b: map<string, string>)
    requires ReadAlike(parse, a, b, AllLabels(RectangleShape))
    ensures RectangleResults(m, parse, a) == RectangleResults(m, parse, b)
  {
    ListedLabelIsShown(RectangleShape, "Area", 0);
    ListedLabelIsShown(RectangleShape, "Area", 1);
  }

  lemma RectangleAgrees(m: MathLib, parse: string -> Num, id: ShapeId, a: map<string, string>, b: map<string, string>)
    requires id == Rectangle
    ensures Compute(m, parse, Definition(id).name, a).Keys == PromisedLabels(Definition(id).calculations)
    ensures UnitsFixed(Compute(m, parse, Definition(id).name, a))
    ensures ReadAlike(parse, a, b, ShownLabels(id)) ==>
      Compute(m, parse, Definition(id).name, a) == Compute(m, parse, Definition(id).name, b)
    ensures AllNaN(Compute(m, parse, Definition(id).name, map[]))
  {
    RectangleDispatched(m, parse, map[]);
    RectangleDispatched(m, parse, a);
    RectangleDispatched(m, parse, b);
    RectangleBlankIsNaN(m, parse);
    RectanglePromises();
    RectangleDelivers(m, parse, a);
    RectangleWellFormed();
    if ReadAlike(parse, a, b, ShownLabels(id)) {
      RectangleFrame(m, parse, a, b);
    }
  }

  // Trapezium

  lemma TrapeziumWellFormed()
    ensures WellFormed(TrapeziumShape) && HasAllInputLists(TrapeziumShape)
  {
    ConsistentWhenDrawnFrom(TrapeziumShape, [Base1Field, Base2Field, HeightField]);
  }

  lemma TrapeziumDispatched(m: MathLib, parse: string -> Num, a: map<string, string>)
    ensures Compute(m, parse, TrapeziumShape.name, a) == TrapeziumResults(parse, a)
  {
  }

  lemma TrapeziumPromises()
    ensures PromisedLabels(TrapeziumShape.calculations) == {"Area"}
  {
  }

  lemma TrapeziumDelivers(m: MathLib, parse: string -> Num, a: map<string, string>)
    ensures TrapeziumResults(parse, a).Keys == {"Area"}
    ensures UnitsFixed(TrapeziumResults(parse, a))
  {
  }

  lemma TrapeziumBlankIsNaN(m: MathLib, parse: string -> Num)
    ensures AllNaN(TrapeziumResults(parse, map[]))
  {
  }

  lemma TrapeziumFrame(m: MathLib, parse: string -> Num, a: map<string, string>, b: map<string, string>)
    requires ReadAlike(parse, a, b, AllLabels(TrapeziumShape))
    ensures TrapeziumResults(parse, a) == TrapeziumResults(parse, b)
  {
    ListedLabelIsShown(TrapeziumShape, "Area", 0);
    ListedLabelIsShown(TrapeziumShape, "Area", 1);
    ListedLabelIsShown(TrapeziumShape, "Area", 2);
  }

  lemma TrapeziumAgrees(m: MathLib, parse: string -> Num, id: ShapeId, a: map<string, string>, b: map<string, string>)
    requires id == Trapezium
    ensures Compute(m, parse, Definition(id).name, a).Keys == PromisedLabels(Definition(id).calculations)
    ensures UnitsFixed(Compute(m, parse, Definition(id).name, a))
    ensures ReadAlike(parse, a, b, ShownLabels(id)) ==>
      Compute(m, parse, Definition(id).name, a) == Compute(m, parse, Definition(id).name, b)
    ensures AllNaN(Compute(m, parse, Definition(id).name, map[]))
  {
    TrapeziumDispatched(m, parse, map[]);
    TrapeziumDispatched(m, parse, a);
    TrapeziumDispatched(m, parse, b);
    TrapeziumBlankIsNaN(m, parse);
    TrapeziumPromises();
    TrapeziumDelivers(m, parse, a);
    TrapeziumWellFormed();
    if ReadAlike(parse, a, b, ShownLabels(id)) {
      TrapeziumFrame(m, parse, a, b);
    }
  }

  // Parallelogram

  lemma ParallelogramWellFormed()
    ensures WellFormed(ParallelogramShape) && HasAllInputLists(ParallelogramShape)
  {
    ConsistentWhenDrawnFrom(ParallelogramShape, [BaseField, HeightField, SideField]);
  }

  lemma ParallelogramDispatched(m: MathLib, parse: string -> Num, a: map<string, string>)
    ensures Compute(m, parse, ParallelogramShape.name, a) == ParallelogramResults(m, parse, a)
  {
  }

  lemma ParallelogramPromises()
    ensures PromisedLabels(ParallelogramShape.calculations) == {"Area", "Perimeter"}
  {
  }

  lemma ParallelogramDelivers(m: MathLib, parse: string -> Num, a: map<string, string>)
    ensures ParallelogramResults(m, parse, a).Keys == {"Area", "Perimeter"}
    ensures UnitsFixed(ParallelogramResults(m, parse, a))
  {
  }

  lemma ParallelogramBlankIsNaN(m: MathLib, parse: string -> Num)
    ensures AllNaN(ParallelogramResults(m, parse, map[]))
  {
  }

  lemma ParallelogramFrame(m: MathLib, parse: string -> Num, a: map<string, string>, b: map<string, string>)
    requires ReadAlike(parse, a, b, AllLabels(ParallelogramShape))
    ensures ParallelogramResults(m, parse, a) == ParallelogramResults(m, parse, b)
  {
    ListedLabelIsShown(ParallelogramShape, "Area", 0);
    ListedLabelIsShown(ParallelogramShape, "Area", 1);
    ListedLabelIsShown(ParallelogramShape, "Perimeter", 1);
  }

  lemma ParallelogramAgrees(m: MathLib, parse: string -> Num, id: ShapeId, a: map<string, string>, b: map<string, string>)
    requires id == Parallelogram
    ensures Compute(m, parse, Definition(id).name, a).Keys == PromisedLabels(Definition(id).calculations)
    ensures UnitsFixed(Compute(m, parse, Definition(id).name, a))
    ensures ReadAlike(parse, a, b, ShownLabels(id)) ==>
      Compute(m, parse, Definition(id).name, a) == Compute(m, parse, Definition(id).name, b)
    ensures AllNaN(Compute(m, parse, Definition(id).name, map[]))
  {
    ParallelogramDispatched(m, parse, map[]);
    ParallelogramDispatched(m, parse, a);
    ParallelogramDispatched(m, parse, b);
    ParallelogramBlankIsNaN(m, parse);
    ParallelogramPromises();
    ParallelogramDelivers(m, parse, a);
    ParallelogramWellFormed();
    if ReadAlike(parse, a, b, ShownLabels(id)) {
      ParallelogramFrame(m, parse, a, b);
    }
  }

  // Rhombus

  lemma RhombusWellFormed()
    ensures WellFormed(RhombusShape) && HasAllInputLists(RhombusShape)
  {
    ConsistentWhenDrawnFrom(RhombusShape, [Diagonal1Field, Diagonal2Field, SideField]);
  }

  lemma RhombusDispatched(m: MathLib, parse: string -> Num, a: map<string, string>)
    ensures Compute(m, parse, RhombusShape.name, a) == RhombusResults(m, parse, a)
  {
  }

  lemma RhombusPromises()
    ensures PromisedLabels(RhombusShape.calculations) == {"Area", "Perimeter", "Side Length"}
  {
  }

  lemma RhombusDelivers(m: MathLib, parse: string -> Num, a: map<string, string>)
    ensures RhombusResults(m, parse, a).Keys == {"Area", "Perimeter", "Side Length"}
    ensures UnitsFixed(RhombusResults(m, parse, a))
  {
  }

  lemma RhombusBlankIsNaN(m: MathLib, parse: string -> Num)
    ensures AllNaN(RhombusResults(m, parse, map[]))
  {
  }

  lemma RhombusFrame(m: MathLib, parse: string -> Num, a: map<string, string>, b: map<string, string>)
    requires ReadAlike(parse, a, b, AllLabels(RhombusShape))
    ensures RhombusResults(m, parse, a) == RhombusResults(m, parse, b)
  {
    ListedLabelIsShown(RhombusShape, "Area", 0);
    ListedLabelIsShown(RhombusShape, "Area", 1);
  }

  lemma RhombusAgrees(m: MathLib, parse: string -> Num, id: ShapeId, a: map<string, string>, b: map<string, string>)
    requires id == Rhombus
    ensures Compute(m, parse, Definition(id).name, a).Keys == PromisedLabels(Definition(id).calculations)
    ensures UnitsFixed(Compute(m, parse, Definition(id).name, a))
    ensures ReadAlike(parse, a, b, ShownLabels(id)) ==>
      Compute(m, parse, Definition(id).name, a) == Compute(m, parse, Definition(id).name, b)
    ensures AllNaN(Compute(m, parse, Definition(id).name, map[]))
  {
    RhombusDispatched(m, parse, map[]);
    RhombusDispatched(m, parse, a);
    RhombusDispatched(m, parse, b);
    RhombusBlankIsNaN(m, parse);
    RhombusPromises();
    RhombusDelivers(m, parse, a);
    RhombusWellFormed();
    if ReadAlike(parse, a, b, ShownLabels(id)) {
      RhombusFrame(m, parse, a, b);
    }
  }

  // RegularPolygon

  lemma RegularPolygonWellFormed()
    ensures WellFormed(RegularPolygonShape) && HasAllInputLists(RegularPolygonShape)
  {
    ConsistentWhenDrawnFrom(RegularPolygonShape, [SideLengthField, SidesCountField]);
  }

  lemma RegularPolygonDispatched(m: MathLib, parse: string -> Num, a: map<string, string>)
    ensures Compute(m, parse, RegularPolygonShape.name, a) == RegularPolygonResults(m, parse, a)
  {
  }

  lemma RegularPolygonPromises()
    ensures PromisedLabels(RegularPolygonShape.calculations) == {"Area", "Perimeter", "Inner Angle", "Outer Angle"}
  {
  }

  lemma RegularPolygonDelivers(m: MathLib, parse: string -> Num, a: map<string, string>)
    ensures RegularPolygonResults(m, parse, a).Keys == {"Area", "Perimeter", "Inner Angle", "Outer Angle"}
    ensures UnitsFixed(RegularPolygonResults(m, parse, a))
  {
  }

  lemma RegularPolygonBlankIsNaN(m: MathLib, parse: string -> Num)
    ensures AllNaN(RegularPolygonResults(m, parse, map[]))
  {
  }

  lemma RegularPolygonFrame(m: MathLib, parse: string -> Num, a: map<string, string>, b: map<string, string>)
    requires ReadAlike(parse, a, b, AllLabels(RegularPolygonShape))
    ensures RegularPolygonResults(m, parse, a) == RegularPolygonResults(m, parse, b)
  {
    ListedLabelIsShown(RegularPolygonShape, "Area", 0);
    ListedLabelIsShown(RegularPolygonShape, "Area", 1);
  }

  lemma RegularPolygonAgrees(m: MathLib, parse: string -> Num, id: ShapeId, a: map<string, string>, b: map<string, string>)
    requires id == RegularPolygon
    ensures Compute(m, parse, Definition(id).name, a).Keys == PromisedLabels(Definition(id).calculations)
    ensures UnitsFixed(Compute(m, parse, Definition(id).name, a))
    ensures ReadAlike(parse, a, b, ShownLabels(id)) ==>
      Compute(m, parse, Definition(id).name, a) == Compute(m, parse, Definition(id).name, b)
    ensures AllNaN(Compute(m, parse, Definition(id).name, map[]))
  {
    RegularPolygonDispatched(m, parse, map[]);
    RegularPolygonDispatched(m, parse, a);
    RegularPolygonDispatched(m, parse, b);
    RegularPolygonBlankIsNaN(m, parse);
    RegularPolygonPromises();
    RegularPolygonDelivers(m, parse, a);
    RegularPolygonWellFormed();
    if ReadAlike(parse, a, b, ShownLabels(id)) {
      RegularPolygonFrame(m, parse, a, b);
    }
  }

  // EquilateralTriangle

  lemma EquilateralTriangleWellFormed()
    ensures WellFormed(EquilateralTriangleShape) && HasAllInputLists(EquilateralTriangleShape)
  {
    ConsistentWhenDrawnFrom(EquilateralTriangleShape, [SideLengthField]);
  }

  lemma EquilateralTriangleDispatched(m: MathLib, parse: string -> Num, a: map<string, string>)
    ensures Compute(m, parse, EquilateralTriangleShape.name, a) == EquilateralTriangleResults(m, parse, a)
  {
  }

  lemma EquilateralTrianglePromises()
    ensures PromisedLabels(EquilateralTriangleShape.calculations) == {"Area", "Perimeter"}
  {
  }

  lemma EquilateralTriangleDelivers(m: MathLib, parse: string -> Num, a: map<string, string>)
    ensures EquilateralTriangleResults(m, parse, a).Keys == {"Area", "Perimeter"}
    ensures UnitsFixed(EquilateralTriangleResults(m, parse, a))
  {
  }

  lemma EquilateralTriangleBlankIsNaN(m: MathLib, parse: string -> Num)
    ensures AllNaN(EquilateralTriangleResults(m, parse, map[]))
  {
  }

  lemma EquilateralTriangleFrame(m: MathLib, parse: string -> Num, a: map<string, string>, b: map<string, string>)
    requires ReadAlike(parse, a, b, AllLabels(EquilateralTriangleShape))
    ensures EquilateralTriangleResults(m, parse, a) == EquilateralTriangleResults(m, parse, b)
  {
    ListedLabelIsShown(EquilateralTriangleShape, "Area", 0);
  }

  lemma EquilateralTriangleAgrees(m: MathLib, parse: string -> Num, id: ShapeId, a: map<string, string>, b: map<string, string>)
    requires id == EquilateralTriangle
    ensures Compute(m, parse, Definition(id).name, a).Keys == PromisedLabels(Definition(id).calculations)
    ensures UnitsFixed(Compute(m, parse, Definition(id).name, a))
    ensures ReadAlike(parse, a, b, ShownLabels(id)) ==>
      Compute(m, parse, Definition(id).name, a) == Compute(m, parse, Definition(id).name, b)
    ensures AllNaN(Compute(m, parse, Definition(id).name, map[]))
  {
    EquilateralTriangleDispatched(m, parse, map[]);
    EquilateralTriangleDispatched(m, parse, a);
    EquilateralTriangleDispatched(m, parse, b);
    EquilateralTriangleBlankIsNaN(m, parse);
    EquilateralTrianglePromises();
    EquilateralTriangleDelivers(m, parse, a);
    EquilateralTriangleWellFormed();
    if ReadAlike(parse, a, b, ShownLabels(id)) {
      EquilateralTriangleFrame(m, parse, a, b);
    }
  }

  // IsoscelesTriangle

  lemma IsoscelesTriangleWellFormed()
    ensures WellFormed(IsoscelesTriangleShape) && HasAllInputLists(IsoscelesTriangleShape)
  {
    ConsistentWhenDrawnFrom(IsoscelesTriangleShape, [BaseField, HeightField, EqualSideField]);
  }

  lemma IsoscelesTriangleDispatched(m: MathLib, parse: string -> Num, a: map<string, string>)
    ensures Compute(m, parse, IsoscelesTriangleShape.name, a) == IsoscelesTriangleResults(parse, a)
  {
  }

  lemma IsoscelesTrianglePromises()
    ensures PromisedLabels(IsoscelesTriangleShape.calculations) == {"Area", "Perimeter"}
  {
  }

  lemma IsoscelesTriangleDelivers(m: MathLib, parse: string -> Num, a: map<string, string>)
    ensures IsoscelesTriangleResults(parse, a).Keys == {"Area", "Perimeter"}
    ensures UnitsFixed(IsoscelesTriangleResults(parse, a))
  {
  }

  lemma IsoscelesTriangleBlankIsNaN(m: MathLib, parse: string -> Num)
    ensures AllNaN(IsoscelesTriangleResults(parse, map[]))
  {
  }

  lemma IsoscelesTriangleFrame(m: MathLib, parse: string -> Num, a: map<string, string>, b: map<string, string>)
    requires ReadAlike(parse, a, b, AllLabels(IsoscelesTriangleShape))
    ensures IsoscelesTriangleResults(parse, a) == IsoscelesTriangleResults(parse, b)
  {
    ListedLabelIsShown(IsoscelesTriangleShape, "Area", 0);
    ListedLabelIsShown(IsoscelesTriangleShape, "Area", 1);
    ListedLabelIsShown(IsoscelesTriangleShape, "Perimeter", 1);
  }

  lemma IsoscelesTriangleAgrees(m: MathLib, parse: string -> Num, id: ShapeId, a: map<string, string>, b: map<string, string>)
    requires id == IsoscelesTriangle
    ensures Compute(m, parse, Definition(id).name, a).Keys == PromisedLabels(Definition(id).calculations)
    ensures UnitsFixed(Compute(m, parse, Definition(id).name, a))
    ensures ReadAlike(parse, a, b, ShownLabels(id)) ==>
      Compute(m, parse, Definition(id).name, a) == Compute(m, parse, Definition(id).name, b)
    ensures AllNaN(Compute(m, parse, Definition(id).name, map[]))
  {
    IsoscelesTriangleDispatched(m, parse, map[]);
    IsoscelesTriangleDispatched(m, parse, a);
    IsoscelesTriangleDispatched(m, parse, b);
    IsoscelesTriangleBlankIsNaN(m, parse);
    IsoscelesTrianglePromises();
    IsoscelesTriangleDelivers(m, parse, a);
    IsoscelesTriangleWellFormed();
    if ReadAlike(parse, a, b, ShownLabels(id)) {
      IsoscelesTriangleFrame(m, parse, a, b);
    }
  }

  // ScaleneTriangle

  lemma ScaleneTriangleWellFormed()
    ensures WellFormed(ScaleneTriangleShape) && HasAllInputLists(ScaleneTriangleShape)
  {
    ConsistentWhenDrawnFrom(ScaleneTriangleShape, [SideAField, SideBField, SideCField]);
  }

  lemma ScaleneTriangleDispatched(m: MathLib, parse: string -> Num, a: map<string, string>)
    ensures Compute(m, parse, ScaleneTriangleShape.name, a) == ScaleneTriangleResults(m, parse, a)
  {
  }

  lemma ScaleneTrianglePromises()
    ensures PromisedLabels(ScaleneTriangleShape.calculations) == {"Area", "Perimeter"}
  {
  }

  lemma ScaleneTriangleDelivers(m: MathLib, parse: string -> Num, a: map<string, string>)
    ensures ScaleneTriangleResults(m, parse, a).Keys == {"Area", "Perimeter"}
    ensures UnitsFixed(ScaleneTriangleResults(m, parse, a))
  {
  }

  lemma ScaleneTriangleBlankIsNaN(m: MathLib, parse: string -> Num)
    ensures AllNaN(ScaleneTriangleResults(m, parse, map[]))
  {
  }

  lemma ScaleneTriangleFrame(m: MathLib, parse: string -> Num, a: map<string, string>, b: map<string, string>)
    requires ReadAlike(parse, a, b, AllLabels(ScaleneTriangleShape))
    ensures ScaleneTriangleResults(m, parse, a) == ScaleneTriangleResults(m, parse, b)
  {
    ListedLabelIsShown(ScaleneTriangleShape, "Area", 0);
    ListedLabelIsShown(ScaleneTriangleShape, "Area", 1);
    ListedLabelIsShown(ScaleneTriangleShape, "Area", 2);
  }

  lemma ScaleneTriangleAgrees(m: MathLib, parse: string -> Num, id: ShapeId, a: map<string, string>, b: map<string, string>)
    requires id == ScaleneTriangle
    ensures Compute(m, parse, Definition(id).name, a).Keys == PromisedLabels(Definition(id).calculations)
    ensures UnitsFixed(Compute(m, parse, Definition(id).name, a))
    ensures ReadAlike(parse, a, b, ShownLabels(id)) ==>
      Compute(m, parse, Definition(id).name, a) == Compute(m, parse, Definition(id).name, b)
    ensures AllNaN(Compute(m, parse, Definition(id).name, map[]))
  {
    ScaleneTriangleDispatched(m, parse, map[]);
    ScaleneTriangleDispatched(m, parse, a);
    ScaleneTriangleDispatched(m, parse, b);
    ScaleneTriangleBlankIsNaN(m, parse);
    ScaleneTrianglePromises();
    ScaleneTriangleDelivers(m, parse, a);
    ScaleneTriangleWellFormed();
    if ReadAlike(parse, a, b, ShownLabels(id)) {
      ScaleneTriangleFrame(m, parse, a, b);
    }
  }

  // RightTriangle

  lemma RightTriangleWellFormed()
    ensures WellFormed(RightTriangleShape) && HasAllInputLists(RightTriangleShape)
  {
    ConsistentWhenDrawnFrom(RightTriangleShape, [BaseField, HeightField, HypotenuseField]);
  }

  lemma RightTriangleDispatched(m: MathLib, parse: string -> Num, a: map<string, string>)
    ensures Compute(m, parse, RightTriangleShape.name, a) == RightTriangleResults(m, parse, a)
  {
  }

  lemma RightTrianglePromises()
    ensures PromisedLabels(RightTriangleShape.calculations) == {"Area", "Perimeter", "Hypotenuse"}
  {
  }

  lemma RightTriangleDelivers(m: MathLib, parse: string -> Num, a: map<string, string>)
    ensures RightTriangleResults(m, parse, a).Keys == {"Area", "Perimeter", "Hypotenuse"}
    ensures UnitsFixed(RightTriangleResults(m, parse, a))
  {
  }

  lemma RightTriangleBlankIsNaN(m: MathLib, parse: string -> Num)
    ensures AllNaN(RightTriangleResults(m, parse, map[]))
  {
  }

  lemma RightTriangleFrame(m: MathLib, parse: string -> Num, a: map<string, string>, b: map<string, string>)
    requires ReadAlike(parse, a, b, AllLabels(RightTriangleShape))
    ensures RightTriangleResults(m, parse, a) == RightTriangleResults(m, parse, b)
  {
    ListedLabelIsShown(RightTriangleShape, "Area", 0);
    ListedLabelIsShown(RightTriangleShape, "Area", 1);
  }

  lemma RightTriangleAgrees(m: MathLib, parse: string -> Num, id: ShapeId, a: map<string, string>, b: map<string, string>)
    requires id == RightTriangle
    ensures Compute(m, parse, Definition(id).name, a).Keys == PromisedLabels(Definition(id).calculations)
    ensures UnitsFixed(Compute(m, parse, Definition(id).name, a))
    ensures ReadAlike(parse, a, b, ShownLabels(id)) ==>
      Compute(m, parse, Definition(id).name, a) == Compute(m, parse, Definition(id).name, b)
    ensures AllNaN(Compute(m, parse, Definition(id).name, map[]))
  {
    RightTriangleDispatched(m, parse, map[]);
    RightTriangleDispatched(m, parse, a);
    RightTriangleDispatched(m, parse, b);
    RightTriangleBlankIsNaN(m, parse);
    RightTrianglePromises();
    RightTriangleDelivers(m, parse, a);
    RightTriangleWellFormed();
    if ReadAlike(parse, a, b, ShownLabels(id)) {
      RightTriangleFrame(m, parse, a, b);
    }
  }

  // Cube

  lemma CubeWellFormed()
    ensures WellFormed(CubeShape) && HasAllInputLists(CubeShape)
  {
    ConsistentWhenDrawnFrom(CubeShape, [SideLengthField]);
  }

  lemma CubeDispatched(m: MathLib, parse: string -> Num, a: map<string, string>)
    ensures Compute(m, parse, CubeShape.name, a) == CubeResults(m, parse, a)
  {
  }

  lemma CubePromises()
    ensures PromisedLabels(CubeShape.calculations) == {"Volume", "Surface Area", "Diagonal"}
  {
  }

  lemma CubeDelivers(m: MathLib, parse: string -> Num, a: map<string, string>)
    ensures CubeResults(m, parse, a).Keys == {"Volume", "Surface Area", "Diagonal"}
    ensures UnitsFixed(CubeResults(m, parse, a))
  {
  }

  lemma CubeBlankIsNaN(m: MathLib, parse: string -> Num)
    ensures AllNaN(CubeResults(m, parse, map[]))
  {
  }

  lemma CubeFrame(m: MathLib, parse: string -> Num, a: map<string, string>, b: map<string, string>)
    requires ReadAlike(parse, a, b, AllLabels(CubeShape))
    ensures CubeResults(m, parse, a) == CubeResults(m, parse, b)
  {
    ListedLabelIsShown(CubeShape, "Volume", 0);
  }

  lemma CubeAgrees(m: MathLib, parse: string -> Num, id: ShapeId, a: map<string, string>, b: map<string, string>)
    requires id == Cube
    ensures Compute(m, parse, Definition(id).name, a).Keys == PromisedLabels(Definition(id).calculations)
    ensures UnitsFixed(Compute(m, parse, Definition(id).name, a))
    ensures ReadAlike(parse, a, b, ShownLabels(id)) ==>
      Compute(m, parse, Definition(id).name, a) == Compute(m, parse, Definition(id).name, b)
    ensures AllNaN(Compute(m, parse, Definition(id).name, map[]))
  {
    CubeDispatched(m, parse, map[]);
    CubeDispatched(m, parse, a);
    CubeDispatched(m, parse, b);
    CubeBlankIsNaN(m, parse);
    CubePromises();
    CubeDelivers(m, parse, a);
    CubeWellFormed();
    if ReadAlike(parse, a, b, ShownLabels(id)) {
      CubeFrame(m, parse, a, b);
    }
  }

  // Box

  lemma BoxWellFormed()
    ensures WellFormed(BoxShape) && HasAllInputLists(BoxShape)
  {
    ConsistentWhenDrawnFrom(BoxShape, [LengthField, WidthField, HeightField]);
  }

  lemma BoxDispatched(m: MathLib, parse: string -> Num, a: map<string, string>)
    ensures Compute(m, parse, BoxShape.name, a) == BoxResults(m, parse, a)
  {
  }

  lemma BoxPromises()
    ensures PromisedLabels(BoxShape.calculations) == {"Volume", "Surface Area", "Diagonal"}
  {
  }

  lemma BoxDelivers(m: MathLib, parse: string -> Num, a: map<string, string>)
    ensures BoxResults(m, parse, a).Keys == {"Volume", "Surface Area", "Diagonal"}
    ensures UnitsFixed(BoxResults(m, parse, a))
  {
  }

  lemma BoxBlankIsNaN(m: MathLib, parse: string -> Num)
    ensures AllNaN(BoxResults(m, parse, map[]))
  {
  }

  lemma BoxFrame(m: MathLib, parse: string -> Num, a: map<string, string>, b: map<string, string>)
    requires ReadAlike(parse, a, b, AllLabels(BoxShape))
    ensures BoxResults(m, parse, a) == BoxResults(m, parse, b)
  {
    ListedLabelIsShown(BoxShape, "Volume", 0);
    ListedLabelIsShown(BoxShape, "Volume", 1);
    ListedLabelIsShown(BoxShape, "Volume", 2);
  }

  lemma BoxAgrees(m: MathLib, parse: string -> Num, id: ShapeId, a: map<string, string>, b: map<string, string>)
    requires id == Box
    ensures Compute(m, parse, Definition(id).name, a).Keys == PromisedLabels(Definition(id).calculations)
    ensures UnitsFixed(Compute(m, parse, Definition(id).name, a))
    ensures ReadAlike(parse, a, b, ShownLabels(id)) ==>
      Compute(m, parse, Definition(id).name, a) == Compute(m, parse, Definition(id).name, b)
    ensures AllNaN(Compute(m, parse, Definition(id).name, map[]))
  {
    BoxDispatched(m, parse, map[]);
    BoxDispatched(m, parse, a);
    BoxDispatched(m, parse, b);
    BoxBlankIsNaN(m, parse);
    BoxPromises();
    BoxDelivers(m, parse, a);
    BoxWellFormed();
    if ReadAlike(parse, a, b, ShownLabels(id)) {
      BoxFrame(m, parse, a, b);
    }
  }

  // Sphere

  lemma SphereWellFormed()
    ensures WellFormed(SphereShape) && HasAllInputLists(SphereShape)
  {
    ConsistentWhenDrawnFrom(SphereShape, [RadiusField]);
  }

  lemma SphereDispatched(m: MathLib, parse: string -> Num, a: map<string, string>)
    ensures Compute(m, parse, SphereShape.name, a) == SphereResults(m, parse, a)
  {
  }

  lemma SpherePromises()
    ensures PromisedLabels(SphereShape.calculations) == {"Volume", "Surface Area"}
  {
  }

  lemma SphereDelivers(m: MathLib, parse: string -> Num, a: map<string, string>)
    ensures SphereResults(m, parse, a).Keys == {"Volume", "Surface Area"}
    ensures UnitsFixed(SphereResults(m, parse, a))
  {
  }

  lemma SphereBlankIsNaN(m: MathLib, parse: string -> Num)
    ensures AllNaN(SphereResults(m, parse, map[]))
  {
  }

  lemma SphereFrame(m: MathLib, parse: string -> Num, a: map<string, string>, b: map<string, string>)
    requires ReadAlike(parse, a, b, AllLabels(SphereShape))
    ensures SphereResults(m, parse, a) == SphereResults(m, parse, b)
  {
    ListedLabelIsShown(SphereShape, "Volume", 0);
  }

  lemma SphereAgrees(m: MathLib, parse: string -> Num, id: ShapeId, a: map<string, string>, b: map<string, string>)
    requires id == Sphere
    ensures Compute(m, parse, Definition(id).name, a).Keys == PromisedLabels(Definition(id).calculations)
    ensures UnitsFixed(Compute(m, parse, Definition(id).name, a))
    ensures ReadAlike(parse, a, b, ShownLabels(id)) ==>
      Compute(m, parse, Definition(id).name, a) == Compute(m, parse, Definition(id).name, b)
    ensures AllNaN(Compute(m, parse, Definition(id).name, map[]))
  {
    SphereDispatched(m, parse, map[]);
    SphereDispatched(m, parse, a);
    SphereDispatched(m, parse, b);
    SphereBlankIsNaN(m, parse);
    SpherePromises();
    SphereDelivers(m, parse, a);
    SphereWellFormed();
    if ReadAlike(parse, a, b, ShownLabels(id)) {
      SphereFrame(m, parse, a, b);
    }
  }

  // Cylinder

  lemma CylinderWellFormed()
    ensures WellFormed(CylinderShape) && HasAllInputLists(CylinderShape)
  {
    ConsistentWhenDrawnFrom(CylinderShape, [RadiusField, HeightField]);
  }

  lemma CylinderDispatched(m: MathLib, parse: string -> Num, a: map<string, string>)
    ensures Compute(m, parse, CylinderShape.name, a) == CylinderResults(m, parse, a)
  {
  }

  lemma CylinderPromises()
    ensures PromisedLabels(CylinderShape.calculations) == {"Volume", "Surface Area"}
  {
  }

  lemma CylinderDelivers(m: MathLib, parse: string -> Num, a: map<string, string>)
    ensures CylinderResults(m, parse, a).Keys == {"Volume", "Surface Area"}
    ensures UnitsFixed(CylinderResults(m, parse, a))
  {
  }

  lemma CylinderBlankIsNaN(m: MathLib, parse: string -> Num)
    ensures AllNaN(CylinderResults(m, parse, map[]))
  {
  }

  lemma CylinderFrame(m: MathLib, parse: string -> Num, a: map<string, string>, b: map<string, string>)
    requires ReadAlike(parse, a, b, AllLabels(CylinderShape))
    ensures CylinderResults(m, parse, a) == CylinderResults(m, parse, b)
  {
    ListedLabelIsShown(CylinderShape, "Volume", 0);
    ListedLabelIsShown(CylinderShape, "Volume", 1);
  }

  lemma CylinderAgrees(m: MathLib, parse: string -> Num, id: ShapeId, a: map<string, string>, b: map<string, string>)
    requires id == Cylinder
    ensures Compute(m, parse, Definition(id).name, a).Keys == PromisedLabels(Definition(id).calculations)
    ensures UnitsFixed(Compute(m, parse, Definition(id).name, a))
    ensures ReadAlike(parse, a, b, ShownLabels(id)) ==>
      Compute(m, parse, Definition(id).name, a) == Compute(m, parse, Definition(id).name, b)
    ensures AllNaN(Compute(m, parse, Definition(id).name, map[]))
  {
    CylinderDispatched(m, parse, map[]);
    CylinderDispatched(m, parse, a);
    CylinderDispatched(m, parse, b);
    CylinderBlankIsNaN(m, parse);
    CylinderPromises();
    CylinderDelivers(m, parse, a);
    CylinderWellFormed();
    if ReadAlike(parse, a, b, ShownLabels(id)) {
      CylinderFrame(m, parse, a, b);
    }
  }

  // Cone

  lemma ConeWellFormed()
    ensures WellFormed(ConeShape) && HasAllInputLists(ConeShape)
  {
    ConsistentWhenDrawnFrom(ConeShape, [RadiusField, HeightField]);
  }

  lemma ConeDispatched(m: MathLib, parse: string -> Num, a: map<string, string>)
    ensures Compute(m, parse, ConeShape.name, a) == ConeResults(m, parse, a)
  {
  }

  lemma ConePromises()
    ensures PromisedLabels(ConeShape.calculations) == {"Volume", "Surface Area"}
  {
  }

  lemma ConeDelivers(m: MathLib, parse: string -> Num, a: map<string, string>)
    ensures ConeResults(m, parse, a).Keys == {"Volume", "Surface Area"}
    ensures UnitsFixed(ConeResults(m, parse, a))
  {
  }

  lemma ConeBlankIsNaN(m: MathLib, parse: string -> Num)
    ensures AllNaN(ConeResults(m, parse, map[]))
  {
  }

  lemma ConeFrame(m: MathLib, parse: string -> Num, a: map<string, string>, b: map<string, string>)
    requires ReadAlike(parse, a, b, AllLabels(ConeShape))
    ensures ConeResults(m, parse, a) == ConeResults(m, parse, b)
  {
    ListedLabelIsShown(ConeShape, "Volume", 0);
    ListedLabelIsShown(ConeShape, "Volume", 1);
  }

  lemma ConeAgrees(m: MathLib, parse: string -> Num, id: ShapeId, a: map<string, string>, b: map<string, string>)
    requires id == Cone
    ensures Compute(m, parse, Definition(id).name, a).Keys == PromisedLabels(Definition(id).calculations)
    ensures UnitsFixed(Compute(m, parse, Definition(id).name, a))
    ensures ReadAlike(parse, a, b, ShownLabels(id)) ==>
      Compute(m, parse, Definition(id).name, a) == Compute(m, parse, Definition(id).name, b)
    ensures AllNaN(Compute(m, parse, Definition(id).name, map[]))
  {
    ConeDispatched(m, parse, map[]);
    ConeDispatched(m, parse, a);
    ConeDispatched(m, parse, b);
    ConeBlankIsNaN(m, parse);
    ConePromises();
    ConeDelivers(m, parse, a);
    ConeWellFormed();
    if ReadAlike(parse, a, b, ShownLabels(id)) {
      ConeFrame(m, parse, a, b);
    }
  }

  // RegularPrism

  lemma RegularPrismWellFormed()
    ensures WellFormed(RegularPrismShape) && HasAllInputLists(RegularPrismShape)
  {
    ConsistentWhenDrawnFrom(RegularPrismShape, [BaseAreaField, HeightField, LateralAreaField]);
  }

  lemma RegularPrismDispatched(m: MathLib, parse: string -> Num, a: map<string, string>)
    ensures Compute(m, parse, RegularPrismShape.name, a) == RegularPrismResults(m, parse, a)
  {
  }

  lemma RegularPrismPromises()
    ensures PromisedLabels(RegularPrismShape.calculations) == {"Volume", "Surface Area"}
  {
  }

  lemma RegularPrismDelivers(m: MathLib, parse: string -> Num, a: map<string, string>)
    ensures RegularPrismResults(m, parse, a).Keys == {"Volume", "Surface Area"}
    ensures UnitsFixed(RegularPrismResults(m, parse, a))
  {
  }

  lemma RegularPrismBlankIsNaN(m: MathLib, parse: string -> Num)
    ensures AllNaN(RegularPrismResults(m, parse, map[]))
  {
  }

  lemma RegularPrismFrame(m: MathLib, parse: string -> Num, a: map<string, string>, b: map<string, string>)
    requires ReadAlike(parse, a, b, AllLabels(RegularPrismShape))
    ensures RegularPrismResults(m, parse, a) == RegularPrismResults(m, parse, b)
  {
    ListedLabelIsShown(RegularPrismShape, "Volume", 0);
    ListedLabelIsShown(RegularPrismShape, "Volume", 1);
    ListedLabelIsShown(RegularPrismShape, "Surface Area", 1);
  }

  lemma RegularPrismAgrees(m: MathLib, parse: string -> Num, id: ShapeId, a: map<string, string>, b: map<string, string>)
    requires id == RegularPrism
    ensures Compute(m, parse, Definition(id).name, a).Keys == PromisedLabels(Definition(id).calculations)
    ensures UnitsFixed(Compute(m, parse, Definition(id).name, a))
    ensures ReadAlike(parse, a, b, ShownLabels(id)) ==>
      Compute(m, parse, Definition(id).name, a) == Compute(m, parse, Definition(id).name, b)
    ensures AllNaN(Compute(m, parse, Definition(id).name, map[]))
  {
    RegularPrismDispatched(m, parse, map[]);
    RegularPrismDispatched(m, parse, a);
    RegularPrismDispatched(m, parse, b);
    RegularPrismBlankIsNaN(m, parse);
    RegularPrismPromises();
    RegularPrismDelivers(m, parse, a);
    RegularPrismWellFormed();
    if ReadAlike(parse, a, b, ShownLabels(id)) {
      RegularPrismFrame(m, parse, a, b);
    }
  }

  // RegularPyramid

  lemma RegularPyramidWellFormed()
    ensures WellFormed(RegularPyramidShape) && HasAllInputLists(RegularPyramidShape)
  {
    ConsistentWhenDrawnFrom(RegularPyramidShape, [BaseAreaField, HeightField]);
  }

  lemma RegularPyramidDispatched(m: MathLib, parse: string -> Num, a: map<string, string>)
    ensures Compute(m, parse, RegularPyramidShape.name, a) == RegularPyramidResults(m, parse, a)
  {
  }

  lemma RegularPyramidPromises()
    ensures PromisedLabels(RegularPyramidShape.calculations) == {"Volume"}
  {
  }

  lemma RegularPyramidDelivers(m: MathLib, parse: string -> Num, a: map<string, string>)
    ensures RegularPyramidResults(m, parse, a).Keys == {"Volume"}
    ensures UnitsFixed(RegularPyramidResults(m, parse, a))
  {
  }

  lemma RegularPyramidBlankIsNaN(m: MathLib, parse: string -> Num)
    ensures AllNaN(RegularPyramidResults(m, parse, map[]))
  {
  }

  lemma RegularPyramidFrame(m: MathLib, parse: string -> Num, a: map<string, string>, b: map<string, string>)
    requires ReadAlike(parse, a, b, AllLabels(RegularPyramidShape))
    ensures RegularPyramidResults(m, parse, a) == RegularPyramidResults(m, parse, b)
  {
    ListedLabelIsShown(RegularPyramidShape, "Volume", 0);
    ListedLabelIsShown(RegularPyramidShape, "Volume", 1);
  }

  lemma RegularPyramidAgrees(m: MathLib, parse: string -> Num, id: ShapeId, a: map<string, string>, b: map<string, string>)
    requires id == RegularPyramid
    ensures Compute(m, parse, Definition(id).name, a).Keys == PromisedLabels(Definition(id).calculations)
    ensures UnitsFixed(Compute(m, parse, Definition(id).name, a))
    ensures ReadAlike(parse, a, b, ShownLabels(id)) ==>
      Compute(m, parse, Definition(id).name, a) == Compute(m, parse, Definition(id).name, b)
    ensures AllNaN(Compute(m, parse, Definition(id).name, map[]))
  {
    RegularPyramidDispatched(m, parse, map[]);
    RegularPyramidDispatched(m, parse, a);
    RegularPyramidDispatched(m, parse, b);
    RegularPyramidBlankIsNaN(m, parse);
    RegularPyramidPromises();
    RegularPyramidDelivers(m, parse, a);
    RegularPyramidWellFormed();
    if ReadAlike(parse, a, b, ShownLabels(id)) {
      RegularPyramidFrame(m, parse, a, b);
    }
  }
}
