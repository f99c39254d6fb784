# Geometry calculator — a Dafny model

The application is a single-page geometry calculator. A static catalog
lists nineteen shapes: twelve 2D shapes and seven 3D shapes. Each shape
has a name, a category, the calculations it offers, and one list of
labelled number fields per calculation.

The user works in four steps:

1. Search the catalog, case-insensitively, in two columns (2D and 3D).
2. Pick a shape.
3. Fill in a form that shows every distinct field once.
4. Press Calculate.

Calculate checks that every entered value is a positive number. It then
dispatches on the shape's name to a library of formulas. The page shows
the resulting map from result label to value and unit.

This project models that core:

- the data types;
- the catalog, transcribed entry by entry;
- the formula library;
- the form's field list;
- the form's state transitions and validation;
- the dispatcher;
- the picker's search and column split;
- the page's selection state.

The project proves the properties the code promises, or evidently relies on.

| module | file | models |
|---|---|---|
| `Numbers` | numbers.dfy | JavaScript numbers as `Fin(real)` or `NaN`, NaN-propagating arithmetic, and the `Math` primitives as parameters (`MathLib`) |
| `Geometry` | geometry.dfy | `Shape`, `InputSpec`, `CalculationResult` and the well-formedness of a catalog entry |
| `Catalog` | catalog.dfy | the nineteen entries of the `shapes` table, in order |
| `Formulas` | formulas.dfy | every formula of the calculation library, one function per formula, with the same expression structure |
| `FormulaLaws` | formula_laws.dfy | identities and definedness facts about the formulas |
| `Sequences` | sequences.dfy | `filter`, `findIndex` and insertion-ordered deduplication (`Array.from(new Set(...))`) |
| `FormInputs` | form_inputs.dfy | the form's `uniqueInputs` |
| `Dispatch` | dispatch.dfy | the `switch` on the shape name, case by case |
| `Agreement` | agreement.dfy | the agreement of the catalog with the dispatcher, for every entry |
| `Quirks` | quirks.dfy | the dispatcher's behaviour that comes from how its cases call the formulas |
| `Form` | form.dfy | the form's entries and error line, typing, Clear, the keyboard shortcuts, and validation plus dispatch |
| `Selector` | selector.dfy | the search filter, the 2D/3D columns and the "No matching … shapes found" notice |
| `Page` | page.dfy | the selected shape, the results, the events, and which child component is mounted |

The model follows the code as written, including these four call sites
that pass too few arguments:

- The parallelogram's area supplies no angle, so it is always NaN.
- The rhombus perimeter receives one argument where the formula takes two
  diagonals, so it is always NaN.
- The regular prism's volume and surface area are always NaN.
- The regular pyramid's volume is always NaN.

The `Quirks` module proves each of these. The remaining source-level
behaviours, all stated and proved in the model, are:

- A shape name outside the catalog gives an empty result map and clears
  the error, because the `switch` has no `default` branch.
- Only entered values are validated. An empty form therefore passes, and
  every formula then sees NaN.
- A field that was typed into and then emptied holds `""`. `Number("")`
  is 0, so the form reports a non-positive value, unless another entry
  is unparsable, in which case the invalid-number message wins.
- The right triangle computes its hypotenuse. The switch never reads a
  "Hypotenuse" the user enters, but validation still rejects one that is
  zero, negative or unparsable, and then no result is shown.
- The rhombus form shows a "Side" field that the switch never reads.
  Validation still rejects a zero, negative or unparsable entry there.

Every parameter that the model leaves uninterpreted is universally
quantified in every lemma. These are `Math.PI`, `Math.sqrt`, `Math.tan`
and `Math.sin` (as a `MathLib`), and JavaScript's `Number(string)` (as a
function `parse`).

## Model

| member | source | states |
|---|---|---|
| Geometry.CategoryName | src/types/geometry.ts:3 | A category's display name is "2D" or "3D", and it reads back to that category |
| Geometry.CategoryNamesCorrespond | src/types/geometry.ts:3 | Exactly the strings "2D" and "3D" read as categories, each back to the name it came from, and the two names differ |
| Geometry.ConsistentWhenDrawnFrom | src/app/page.tsx:15-17 | Input lists whose fields all come from one table of distinct labels give a reused label the same type and placeholder in every list |
| Catalog.Position | src/app/page.tsx:9-279 | Every entry has a place in the table: Order holds it at that index |
| Catalog.OrderIsPermutation | src/app/page.tsx:9-279 | The table has nineteen entries, and each entry sits at exactly one position |
| Catalog.NamesAreDistinct | src/app/page.tsx:9-279 | No two shapes of the table share a name, so the name identifies the shape for the dispatcher and as a React key |
| Catalog.HasCalculations | src/app/page.tsx:9-279 | Every shape offers at least one calculation |
| Catalog.CategoryByPosition | src/app/page.tsx:10-180 | The first twelve entries are the 2D shapes and the last seven are the 3D shapes |
| FormulaLaws.AnglesAreSupplementary | src/lib/geometry-calculations.ts:38-43 | A regular polygon's inner and outer angle add up to 180 degrees for any finite nonzero side count, and are NaN otherwise |
| FormulaLaws.PerimeterIsFourSides | src/lib/geometry-calculations.ts:31-36 | The rhombus perimeter is four times its side length, for all diagonals |
| FormulaLaws.HeronIsSymmetric | src/lib/geometry-calculations.ts:54-60 | Heron's product and the scalene area do not depend on the order of the three sides |
| FormulaLaws.ScaleneAreaDefinedIffTriangle | src/lib/geometry-calculations.ts:54-60 | For positive sides the scalene area is a number exactly when the triangle inequalities hold; otherwise the square root of a negative product gives NaN |
| FormulaLaws.RectangleIsSymmetric | src/lib/geometry-calculations.ts:16-20 | Swapping length and width changes neither area nor perimeter |
| FormulaLaws.CubeIsEqualSidedBox | src/lib/geometry-calculations.ts:69-80 | The cube's volume and surface area are the box's, with three equal sides |
| FormulaLaws.EquilateralIsEqualSidedScalene | src/lib/geometry-calculations.ts:46-60 | The equilateral perimeter is the scalene perimeter with three equal sides |
| FormulaLaws.SquareIsFourSidedPolygon | src/lib/geometry-calculations.ts:10-43 | The square's perimeter is the regular polygon's perimeter with four sides |
| FormulaLaws.PyramidIsThirdOfPrism | src/lib/geometry-calculations.ts:97-107 | A regular pyramid has a third of the volume of the regular prism on the same base and height |
| FormulaLaws.PositiveMeasuresGivePositiveAreas | src/lib/geometry-calculations.ts:10-24 | Positive measurements give positive square, rectangle and trapezium areas and perimeters |
| FormulaLaws.PositiveMeasuresGivePositiveVolumes | src/lib/geometry-calculations.ts:69-80 | Positive measurements give positive cube and box volumes and surface areas |
| Sequences.FindIndex | src/components/geometry/CalculationForm.tsx:25-27 | Returns the first index whose element satisfies the predicate, or none exactly when no element does |
| Sequences.Dedup | src/components/geometry/CalculationForm.tsx:20-23 | Keeps exactly the elements of the input, with no repetitions |
| Sequences.DedupKeepsFirstOccurrenceOrder | src/components/geometry/CalculationForm.tsx:20-23 | Like a Set, deduplication lists elements in the order of their first occurrence |
| FormInputs.InLabelsAcross | src/components/geometry/CalculationForm.tsx:21-23 | A label is in the flattened list exactly when some calculation's input list has it |
| FormInputs.ListedLabelIsShown | src/components/geometry/CalculationForm.tsx:20-23 | Every field of every calculation's list is among the labels the form collects |
| FormInputs.FirstSpec | src/components/geometry/CalculationForm.tsx:24-29 | A shown field takes its type and placeholder from the first calculation, in declared order, whose list has the label, and from the first such entry of that list |
| FormInputs.UniqueInputs | src/components/geometry/CalculationForm.tsx:20-30 | The form shows each required label exactly once, covers every label of every calculation, orders fields by first occurrence, and takes each field's metadata from its first listing |
| FormInputs.UniqueInputsAgreeWithEveryListing | src/components/geometry/CalculationForm.tsx:24-29 | When reused labels carry the same metadata everywhere, the shown field equals every listing of its label |
| Agreement.EntryIsWellFormed | src/app/page.tsx:9-279 | Every catalog entry has exactly one input list per calculation, no label twice in one list, and identical metadata for a reused label |
| Agreement.PromisedLabels | src/app/page.tsx:104-118 | The result labels a list of calculations promises, with "Inner/Outer Angles" standing for the two results "Inner Angle" and "Outer Angle" |
| Agreement.ResultsAsPromised | src/components/geometry/CalculationForm.tsx:54-323 | For every catalog shape the switch yields exactly the result labels its calculations promise, each with the unit of its kind: square units, cubic units, degrees or units |
| Agreement.ReadsOnlyShownFields | src/components/geometry/CalculationForm.tsx:54-323 | The switch reads only fields the form shows for that shape: entries that agree on the shown labels give equal results |
| Agreement.BlankFormGivesNaN | src/components/geometry/CalculationForm.tsx:54-323 | With no entries every result value of every catalog shape is NaN, because each missing field reads as `Number(undefined)` |
| Dispatch.NoCaseMatches | src/components/geometry/CalculationForm.tsx:54-323 | A name that is none of the switch's nineteen case labels produces an empty result map |
| Quirks.UnknownNameGivesNoResults | src/components/geometry/CalculationForm.tsx:54-323 | A name that is no catalog entry's name gives an empty result map |
| Quirks.UnknownShapeEmitsNoResults | src/components/geometry/CalculationForm.tsx:54-327 | Calculate with valid entries on a shape outside the catalog hands the page an empty result map and clears the error |
| Quirks.CatalogNameGivesResults | src/components/geometry/CalculationForm.tsx:54-323 | Every catalog name gives at least one result |
| Quirks.OnlyCatalogNamesGiveResults | src/components/geometry/CalculationForm.tsx:54-323 | The result map is empty exactly when the name belongs to no catalog entry |
| Quirks.ParallelogramAreaIsNaN | src/components/geometry/CalculationForm.tsx:119-131 | The parallelogram's area is NaN for all entries, since the call leaves the angle undefined |
| Quirks.RhombusPerimeterIsNaN | src/components/geometry/CalculationForm.tsx:133-148 | The rhombus perimeter is NaN for all entries, since the side length is passed as the first diagonal and the second is undefined |
| Quirks.RhombusIgnoresSide | src/components/geometry/CalculationForm.tsx:133-148 | Changing the "Side" entry the rhombus form shows leaves the switch's results unchanged |
| Quirks.EnteredSideIsValidated | src/components/geometry/CalculationForm.tsx:45-51 | A zero, negative or unparsable "Side" entry still blocks every rhombus result and shows a validation error |
| Quirks.RegularPrismIsNaN | src/components/geometry/CalculationForm.tsx:300-314 | The prism's volume and surface area are NaN for all entries, since each call supplies two of three arguments |
| Quirks.RegularPyramidIsNaN | src/components/geometry/CalculationForm.tsx:316-323 | The pyramid's volume is NaN for all entries, since the call supplies two of three arguments |
| Quirks.RightTriangleComputesHypotenuse | src/components/geometry/CalculationForm.tsx:210-227 | The hypotenuse is computed from base and height, the perimeter uses that computed value, and changing an entered "Hypotenuse" leaves the switch's results unchanged |
| Quirks.EnteredHypotenuseIsValidated | src/components/geometry/CalculationForm.tsx:45-51 | A zero, negative or unparsable "Hypotenuse" entry still blocks every right-triangle result and shows a validation error |
| Form.InputChange | src/components/geometry/CalculationForm.tsx:32-37 | Typing sets that one field; every other field and the error line stay as they were |
| Form.LastChangeWins | src/components/geometry/CalculationForm.tsx:32-37 | Typing into a field twice is the same as typing only the second value |
| Form.ChangesCommute | src/components/geometry/CalculationForm.tsx:32-37 | Changes to two different fields can be made in either order |
| Form.ClearForgetsEverything | src/components/geometry/CalculationForm.tsx:384-387 | Clear empties the entries and the error whatever was typed before |
| Form.KeyPress | src/components/geometry/CalculationForm.tsx:335-345 | Enter calculates, Escape goes back and "c" clears, each for exactly that key; every other key does nothing |
| Form.ValidationError | src/components/geometry/CalculationForm.tsx:45-51 | Validation passes exactly when every entered value is a positive number; otherwise it raises one of the two messages |
| Form.HandleCalculate | src/components/geometry/CalculationForm.tsx:39-333 | Results are emitted exactly when every entry is a positive number, and they are then the switch's results with the error cleared; otherwise an error message is shown; the entries are kept either way |
| Form.NotANumberTakesPrecedence | src/components/geometry/CalculationForm.tsx:45-48 | One unparsable entry yields the invalid-number message even when another entry is zero or negative |
| Form.NonPositiveReported | src/components/geometry/CalculationForm.tsx:49-51 | When every entry is a number, a zero or negative one yields the greater-than-zero message |
| Form.EmptyFormPasses | src/components/geometry/CalculationForm.tsx:45-56 | An empty form passes validation and reaches the switch, and every field reads as NaN |
| Form.EmptiedFieldIsZero | src/components/geometry/CalculationForm.tsx:32-51 | A field typed into and then emptied reads as 0, and when no other entry is unparsable the form reports a non-positive value |
| Selector.Lower | src/components/geometry/ShapeSelector.tsx:16 | Lower-casing keeps the length and maps each character on its own |
| Selector.LowerIsIdempotent | src/components/geometry/ShapeSelector.tsx:16 | Lower-casing twice is lower-casing once |
| Selector.FilteredShapes | src/components/geometry/ShapeSelector.tsx:15-17 | The search keeps exactly the shapes whose lower-cased name contains the lower-cased query |
| Selector.SearchKeepsOrder | src/components/geometry/ShapeSelector.tsx:15-17 | The search result is a subsequence of the catalog, so the catalog order is kept |
| Selector.SearchKeepsMultiplicity | src/components/geometry/ShapeSelector.tsx:15-17 | The search keeps every occurrence of a matching shape and none of any other, so together with the order it fixes the result even for a list with repeated shapes |
| Selector.EmptyQueryKeepsAll | src/components/geometry/ShapeSelector.tsx:13-17 | The empty query, the initial one, keeps every shape |
| Selector.SearchIsIdempotent | src/components/geometry/ShapeSelector.tsx:15-17 | Searching the result again with the same query changes nothing |
| Selector.SearchIgnoresCase | src/components/geometry/ShapeSelector.tsx:15-17 | Queries that agree after lower-casing find the same shapes |
| Selector.LowerCaseQueryFindsTheSame | src/components/geometry/ShapeSelector.tsx:15-17 | A query and its lower-cased form find the same shapes |
| Selector.OfCategory | src/components/geometry/ShapeSelector.tsx:48-49 | A column holds exactly the found shapes of its category |
| Selector.ColumnKeepsOrder | src/components/geometry/ShapeSelector.tsx:48-49 | A column keeps the order of the search result |
| Selector.ColumnsPartition | src/components/geometry/ShapeSelector.tsx:48-70 | The 2D and 3D columns together hold every found shape exactly once |
| Selector.TwoDColumnIsFront | src/components/geometry/ShapeSelector.tsx:48-49 | When the 2D shapes come first, the 2D column is exactly that front part |
| Selector.ThreeDColumnIsBack | src/components/geometry/ShapeSelector.tsx:69-70 | When the 2D shapes come first, the 3D column is exactly the rest |
| Selector.ColumnFor | src/components/geometry/ShapeSelector.tsx:48-83 | A column shows its category's found shapes, and shows its "No matching … shapes found" notice exactly when there are none |
| Page.BackReturnsToPicker | src/app/page.tsx:305 | Back and Escape deselect the shape, keep the shown results, and mount the picker again with an empty search that lists every shape |
| Page.LaunchShowsOwnResults | src/app/page.tsx:281-283 | The invariant that shown results belong to the selected shape holds at launch, when nothing is selected and no results are shown |
| Page.StepKeepsOwnResults | src/app/page.tsx:281-312 | No event makes the page show results computed for a shape other than the selected one |
| Page.PickStartsFresh | src/app/page.tsx:285-288 | Picking a shape the picker lists shows it with no results and a freshly mounted, empty form |
| Page.StepSelectsFrom | src/components/geometry/ShapeSelector.tsx:48-80 | Only the picker's buttons select a shape, so no event selects a shape outside the list the page offers |
| Page.ShownResultsAsPromised | src/app/page.tsx:290-305 | On the catalog page, whenever results are shown they are exactly the result labels the selected catalog entry promises, each in its unit, so the switch's fallback for unknown names is never reached from the page |
| Page.CalculateShowsOrKeeps | src/components/geometry/CalculationForm.tsx:39-333 | With valid entries the page shows exactly what the switch computes from them; with an invalid entry the page keeps what it showed and the form shows an error |
| Page.ShortcutsMatchButtons | src/components/geometry/CalculationForm.tsx:335-345 | Enter, "c" and Escape have the same effect as Calculate, Clear and Back |
| Page.LaunchColumns | src/app/page.tsx:9-279 | At launch the search keeps all shapes; the 2D column lists the first twelve catalog shapes and the 3D column the other seven, and neither shows its notice |

## Left out

- Rendering is not modelled: JSX, CSS classes, the search icon, the page
  heading, and the `Results` component's formatting of values.
- `isLoading` and the "Calculating..." label are not modelled. The handler
  is synchronous, so the flag is never observable between events.
- The `catch` branch's "An error occurred" fallback is not modelled. Only
  the two validation errors are ever thrown.
- Floating-point behaviour is not modelled. Values are exact reals or NaN;
  rounding, signed zero and the infinities are absent.
- `Numbers.Div`: IEEE-754 gives ±Infinity for a nonzero number divided by
  zero, but the model gives NaN. With validated inputs, only the polygon
  formulas can divide by zero, through `Math.tan(Math.PI / n)`.
- `parse` is an abstract function, not a model of JavaScript's `Number`.
  The only facts used are the ones a lemma states as its precondition,
  e.g. `parse("") == Fin(0.0)`. An entry such as "Infinity", which
  `Number` accepts as positive, is therefore outside the model.
- `Selector.Lower` lower-cases the ASCII letters only. `toLowerCase` also
  maps other Unicode letters.
- The insertion order of the result object's keys is not modelled.
  Results are a map, so the order in which the results list displays
  them is not modelled.
- React's rendering cycle is replaced by one atomic state transition per
  event in `Page.Step`:
  - Unmounting a child is modelled explicitly. The picker's query resets
    to "" on Back, and the form resets to its initial state on Pick.
  - A "c" typed inside a number field both clears the form (through the
    key handler) and reaches the field (through the change handler). The
    model treats these as two separate events.
- `Formulas`: the formula functions have no contracts of their own. They
  mirror the library's expressions, and the `FormulaLaws`, `Agreement` and
  `Quirks` lemmas state what they compute.
