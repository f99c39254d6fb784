/** The shared data model: a shape definition of the catalog and the
    result record the dispatcher produces. */
module Geometry {
  import opened Wrappers
  import opened Numbers

  /** A shape is two- or three-dimensional; no third category exists. */
  datatype Category = TwoD | ThreeD

  /** The only input type the catalog uses is a number field. */
  datatype InputType = NumberField

  /** One labelled field of a calculation's input list. Its `name` (the
      field's label; `label` is a reserved word in Dafny) is both the
      display name and the key that binds an entered value to a formula
      parameter. */
  datatype InputSpec = InputSpec(name: string, kind: InputType, placeholder: string)

  /** A catalog entry. `requiredInputs` maps a calculation name to the
      ordered list of fields that calculation needs. */
  datatype Shape = Shape(
    name: string,
    category: Category,
    calculations: seq<string>,
    requiredInputs: map<string, seq<InputSpec>>)

  /** A computed value together with its unit. */
  datatype CalculationResult = CalculationResult(value: Num, unit: string)

  type Results = map<string, CalculationResult>

  const SquareUnits := "square units"
  const Units := "units"
  const CubicUnits := "cubic units"
  const Degrees := "degrees"

  /** The display name of a category: the string literal type
      `"2D" | "3D"`. */
  function CategoryName(c: Category): (s: string)
    ensures s == "2D" || s == "3D"
    ensures CategoryOfName(s) == Some(c)
  {
    match c
    case TwoD => "2D"
    case ThreeD => "3D"
  }

  /** Reads a category name back; a string outside the literal type names
      no category. */
  function CategoryOfName(s: string): Option<Category> {
    if s == "2D" then Some(TwoD)
    else if s == "3D" then Some(ThreeD)
    else None
  }

  /** Display names and categories are in one-to-one correspondence. */
  lemma CategoryNamesCorrespond(s: string)
    ensures CategoryOfName(s).Some? <==> s == CategoryName(TwoD) || s == CategoryName(ThreeD)
    ensures CategoryOfName(s).Some? ==> CategoryName(CategoryOfName(s).value) == s
    ensures CategoryName(TwoD) != CategoryName(ThreeD)
  {
  }

  /** The labels of one input list, in list order. */
  function LabelsOf(specs: seq<InputSpec>): (r: seq<string>)
    ensures |r| == |specs|
    ensures forall i :: 0 <= i < |specs| ==> r[i] == specs[i].name
  {
    if specs == [] then [] else [specs[0].name] + LabelsOf(specs[1..])
  }

  /** Every calculation of the shape has an input list. */
  predicate HasAllInputLists(s: Shape) {
    forall c :: c in s.calculations ==> c in s.requiredInputs
  }

  /** The key set of `requiredInputs` is exactly the set of calculations. */
  predicate KeysMatchCalculations(s: Shape) {
    s.requiredInputs.Keys == set c | c in s.calculations
  }

  /** No label occurs twice within one calculation's input list. */
  predicate DistinctLabelsPerCalculation(s: Shape) {
    forall c, i, j :: c in s.requiredInputs && 0 <= i < j < |s.requiredInputs[c]| ==>
      s.requiredInputs[c][i].name != s.requiredInputs[c][j].name
  }

  /** A label that several calculations share carries the same type and
      placeholder everywhere, so it does not matter which occurrence a
      form takes its metadata from. */
  predicate ConsistentReusedLabels(s: Shape) {
    forall c1, c2, i, j ::
      c1 in s.requiredInputs && c2 in s.requiredInputs &&
      0 <= i < |s.requiredInputs[c1]| && 0 <= j < |s.requiredInputs[c2]| &&
      s.requiredInputs[c1][i].name == s.requiredInputs[c2][j].name ==>
      s.requiredInputs[c1][i] == s.requiredInputs[c2][j]
  }

  predicate WellFormed(s: Shape) {
    && KeysMatchCalculations(s)
    && DistinctLabelsPerCalculation(s)
    && ConsistentReusedLabels(s)
  }

  /** Every field of every input list of `s` is one of `fields`. */
  predicate DrawnFrom(s: Shape, fields: seq<InputSpec>) {
    forall c, i :: c in s.requiredInputs && 0 <= i < |s.requiredInputs[c]| ==>
      s.requiredInputs[c][i] in fields
  }

  predicate DistinctNames(fields: seq<InputSpec>) {
    forall i, j :: 0 <= i < j < |fields| ==> fields[i].name != fields[j].name
  }

  /** Input lists drawn from one table of fields with distinct names
      cannot disagree about a label. */
  lemma ConsistentWhenDrawnFrom(s: Shape, fields: seq<InputSpec>)
    requires DrawnFrom(s, fields) && DistinctNames(fields)
    ensures ConsistentReusedLabels(s)
  {
    forall c1, c2, i, j |
      c1 in s.requiredInputs && c2 in s.requiredInputs &&
      0 <= i < |s.requiredInputs[c1]| && 0 <= j < |s.requiredInputs[c2]| &&
      s.requiredInputs[c1][i].name == s.requiredInputs[c2][j].name
      ensures s.requiredInputs[c1][i] == s.requiredInputs[c2][j]
    {
      var x, y := s.requiredInputs[c1][i], s.requiredInputs[c2][j];
      assert x in fields && y in fields;
      var k :| 0 <= k < |fields| && fields[k] == x;
      var l :| 0 <= l < |fields| && fields[l] == y;
      assert k == l;
    }
  }
}
