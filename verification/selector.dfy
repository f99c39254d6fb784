/** The shape picker: a case-insensitive substring search over shape
    names, whose result is shown in two columns, 2D and 3D. */
module Selector {
  import opened Wrappers
  import opened Sequences
  import opened Geometry

  /** `toLowerCase` on one character, for the ASCII letters. */
  function LowerChar(c: char): char {
    if 'A' <= c <= 'Z' then (c as int + 32) as char else c
  }

  function Lower(s: string): (r: string)
    ensures |r| == |s|
    ensures forall i :: 0 <= i < |s| ==> r[i] == LowerChar(s[i])
  {
    seq(|s|, i requires 0 <= i < |s| => LowerChar(s[i]))
  }

  /** Lower-casing a lower-cased string changes nothing. */
  lemma LowerIsIdempotent(s: string)
    ensures Lower(Lower(s)) == Lower(s)
  {
  }

  /** `text.includes(part)`. */
  predicate Contains(text: string, part: string) {
    exists i :: 0 <= i <= |text| && part <= text[i..]
  }

  /** The search condition for one shape. */
  predicate Matches(query: string, shape: Shape) {
    Contains(Lower(shape.name), Lower(query))
  }

  /** The shapes the search keeps, in catalog order. */
  function FilteredShapes(shapes: seq<Shape>, query: string): (r: seq<Shape>)
    ensures forall i :: 0 <= i < |r| ==> r[i] in shapes && Matches(query, r[i])
    ensures forall i :: 0 <= i < |shapes| && Matches(query, shapes[i]) ==> shapes[i] in r
  {
    Filter(shape => Matches(query, shape), shapes)
  }

  /** The search keeps the catalog order. */
  lemma SearchKeepsOrder(shapes: seq<Shape>, query: string)
    ensures IsSubsequence(FilteredShapes(shapes, query), shapes)
  {
    FilterIsSubsequence(shape => Matches(query, shape), shapes);
  }

  /** The search keeps every occurrence of a matching shape and none of
      another, so with `SearchKeepsOrder` it determines the result even
      when the list holds a shape twice. */
  lemma SearchKeepsMultiplicity(shapes: seq<Shape>, query: string, x: Shape)
    ensures multiset(FilteredShapes(shapes, query))[x] ==
      if Matches(query, x) then multiset(shapes)[x] else 0
  {
    FilterCounts(shape => Matches(query, shape), shapes, x);
  }

  /** The empty search keeps every shape. */
  lemma EmptyQueryKeepsAll(shapes: seq<Shape>)
    ensures FilteredShapes(shapes, "") == shapes
  {
    forall shape | shape in shapes
      ensures Matches("", shape)
    {
      assert "" <= Lower(shape.name)[0..];
    }
    FilterKeepsAll(shape => Matches("", shape), shapes);
  }

  /** Searching the search result again with the same query keeps it. */
  lemma SearchIsIdempotent(shapes: seq<Shape>, query: string)
    ensures FilteredShapes(FilteredShapes(shapes, query), query) == FilteredShapes(shapes, query)
  {
    FilterIsIdempotent(shape => Matches(query, shape), shapes);
  }

  /** Queries that agree up to letter case find the same shapes. */
  lemma SearchIgnoresCase(shapes: seq<Shape>, q1: string, q2: string)
    requires Lower(q1) == Lower(q2)
    ensures FilteredShapes(shapes, q1) == FilteredShapes(shapes, q2)
  {
    FilterAgrees(shape => Matches(q1, shape), shape => Matches(q2, shape), shapes);
  }

  /** In particular a query and its lower-cased form find the same shapes. */
  lemma LowerCaseQueryFindsTheSame(shapes: seq<Shape>, query: string)
    ensures FilteredShapes(shapes, Lower(query)) == FilteredShapes(shapes, query)
  {
    LowerIsIdempotent(query);
    SearchIgnoresCase(shapes, Lower(query), query);
  }

  /** One column of the picker: the shapes of one category, in order. */
  function OfCategory(shapes: seq<Shape>, c: Category): (r: seq<Shape>)
    ensures forall i :: 0 <= i < |r| ==> r[i] in shapes && r[i].category == c
    ensures forall i :: 0 <= i < |shapes| && shapes[i].category == c ==> shapes[i] in r
  {
    Filter((shape: Shape) => shape.category == c, shapes)
  }

  /** A column keeps the order of the search result. */
  lemma ColumnKeepsOrder(shapes: seq<Shape>, c: Category)
    ensures IsSubsequence(OfCategory(shapes, c), shapes)
  {
    FilterIsSubsequence((shape: Shape) => shape.category == c, shapes);
  }

  /** The 2D and the 3D column together hold every found shape exactly
      as often as the search result does. */
  lemma ColumnsPartition(found: seq<Shape>)
    ensures multiset(OfCategory(found, TwoD)) + multiset(OfCategory(found, ThreeD)) == multiset(found)
    ensures |OfCategory(found, TwoD)| + |OfCategory(found, ThreeD)| == |found|
  {
    FilterPartition((shape: Shape) => shape.category == TwoD, (shape: Shape) => shape.category == ThreeD, found);
  }

  /** Shapes listed with all 2D ones first: the 2D column is the front
      part of the list, the 3D column the rest. */
  predicate TwoDFirst(shapes: seq<Shape>, n: nat) {
    n <= |shapes| &&
    forall i :: 0 <= i < |shapes| ==> shapes[i].category == (if i < n then TwoD else ThreeD)
  }

  lemma TwoDColumnIsFront(shapes: seq<Shape>, n: nat)
    requires TwoDFirst(shapes, n)
    ensures OfCategory(shapes, TwoD) == shapes[..n]
  {
    var front, back := shapes[..n], shapes[n..];
    assert shapes == front + back;
    FilterConcat((shape: Shape) => shape.category == TwoD, front, back);
    FilterKeepsAll((shape: Shape) => shape.category == TwoD, front);
    FilterKeepsNone((shape: Shape) => shape.category == TwoD, back);
  }

  lemma ThreeDColumnIsBack(shapes: seq<Shape>, n: nat)
    requires TwoDFirst(shapes, n)
    ensures OfCategory(shapes, ThreeD) == shapes[n..]
  {
    var front, back := shapes[..n], shapes[n..];
    assert shapes == front + back;
    FilterConcat((shape: Shape) => shape.category == ThreeD, front, back);
    FilterKeepsNone((shape: Shape) => shape.category == ThreeD, front);
    FilterKeepsAll((shape: Shape) => shape.category == ThreeD, back);
  }

  /** A rendered column: its buttons, and the notice shown in their place
      when there are none. */
  datatype Column = Column(buttons: seq<Shape>, notice: Option<string>)

  function NoMatchNotice(c: Category): string {
    "No matching " + CategoryName(c) + " shapes found"
  }

  function ColumnFor(found: seq<Shape>, c: Category): (col: Column)
    ensures col.buttons == OfCategory(found, c)
    ensures col.notice.Some? <==> forall i :: 0 <= i < |found| ==> found[i].category != c
    ensures col.notice.Some? ==> col.notice.value == NoMatchNotice(c)
  {
    var buttons := OfCategory(found, c);
    assert |buttons| > 0 ==> buttons[0] in found && buttons[0].category == c;
    Column(buttons, if |buttons| == 0 then Some(NoMatchNotice(c)) else None)
  }
}
