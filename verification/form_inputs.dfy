/** The input fields the calculation form shows: one field per distinct
    label across all calculations of the shape, in order of first
    appearance, with the metadata of the first calculation that lists it. */
module FormInputs {
  import opened Wrappers
  import opened Sequences
  import opened Geometry

  /** The labels of the given calculations' input lists, calculation by
      calculation and in list order within each. */
  function LabelsAcross(calcs: seq<string>, req: map<string, seq<InputSpec>>): seq<string>
    requires forall c :: c in calcs ==> c in req
  {
    if calcs == [] then [] else LabelsOf(req[calcs[0]]) + LabelsAcross(calcs[1..], req)
  }

  /** Every label of the shape, with repetitions, in form order. */
  function AllLabels(s: Shape): seq<string>
    requires HasAllInputLists(s)
  {
    LabelsAcross(s.calculations, s.requiredInputs)
  }

  /** Calculation `c` of shape `s` asks for a field named `fieldName`. */
  predicate Lists(s: Shape, c: string, fieldName: string) {
    c in s.requiredInputs && fieldName in LabelsOf(s.requiredInputs[c])
  }

  /** A label occurs in the flattened list exactly when some calculation
      lists it. */
  lemma {:induction false} InLabelsAcross(calcs: seq<string>, req: map<string, seq<InputSpec>>, fieldName: string)
    requires forall c :: c in calcs ==> c in req
    ensures fieldName in LabelsAcross(calcs, req) <==>
      exists k :: 0 <= k < |calcs| && fieldName in LabelsOf(req[calcs[k]])
  {
    if calcs != [] {
      InLabelsAcross(calcs[1..], req, fieldName);
      if fieldName in LabelsAcross(calcs[1..], req) {
        var k :| 0 <= k < |calcs[1..]| && fieldName in LabelsOf(req[calcs[1..][k]]);
        assert calcs[k + 1] == calcs[1..][k];
      }
      if k :| 0 <= k < |calcs| && fieldName in LabelsOf(req[calcs[k]]) {
        if k > 0 {
          assert calcs[1..][k - 1] == calcs[k];
        }
      }
    }
  }

  /** A field of any calculation's list appears in the form's labels. */
  lemma ListedLabelIsShown(s: Shape, c: string, j: nat)
    requires HasAllInputLists(s)
    requires c in s.calculations && j < |s.requiredInputs[c]|
    ensures s.requiredInputs[c][j].name in AllLabels(s)
  {
    var k :| 0 <= k < |s.calculations| && s.calculations[k] == c;
    assert LabelsOf(s.requiredInputs[c])[j] == s.requiredInputs[c][j].name;
    InLabelsAcross(s.calculations, s.requiredInputs, s.requiredInputs[c][j].name);
  }

  /** `spec` comes from the first calculation, in declared order, that
      lists its label, and it is the first field of that list carrying
      the label. */
  ghost predicate FromFirstListing(s: Shape, spec: InputSpec) {
    exists k, j ::
      && 0 <= k < |s.calculations|
      && s.calculations[k] in s.requiredInputs
      && 0 <= j < |s.requiredInputs[s.calculations[k]]|
      && s.requiredInputs[s.calculations[k]][j] == spec
      && (forall k' :: 0 <= k' < k ==> !Lists(s, s.calculations[k'], spec.name))
      && (forall j' :: 0 <= j' < j ==> s.requiredInputs[s.calculations[k]][j'].name != spec.name)
  }

  /** The metadata the form shows for `fieldName`: `calculations.find` picks
      the first calculation listing it, `find` the first field of that
      list with the label. */
  function FirstSpec(s: Shape, fieldName: string): (spec: InputSpec)
    requires HasAllInputLists(s) && fieldName in AllLabels(s)
    ensures spec.name == fieldName
    ensures FromFirstListing(s, spec)
  {
    InLabelsAcross(s.calculations, s.requiredInputs, fieldName);
    var k := FindIndex((c: string) => Lists(s, c, fieldName), s.calculations);
    var list := s.requiredInputs[s.calculations[k.value]];
    var j := FindIndex((f: InputSpec) => f.name == fieldName, list);
    assert j.Some? by {
      var i :| 0 <= i < |LabelsOf(list)| && LabelsOf(list)[i] == fieldName;
    }
    FirstListingAt(s, k.value, j.value, fieldName);
    list[j.value]
  }

  /** The field at position `j` of calculation `k`'s list is the first
      listing of its label when no earlier calculation and no earlier
      field of that list carries the label. */
  lemma FirstListingAt(s: Shape, k: nat, j: nat, fieldName: string)
    requires k < |s.calculations| && s.calculations[k] in s.requiredInputs
    requires j < |s.requiredInputs[s.calculations[k]]|
    requires s.requiredInputs[s.calculations[k]][j].name == fieldName
    requires forall k' :: 0 <= k' < k ==> !Lists(s, s.calculations[k'], fieldName)
    requires forall j' :: 0 <= j' < j ==> s.requiredInputs[s.calculations[k]][j'].name != fieldName
    ensures FromFirstListing(s, s.requiredInputs[s.calculations[k]][j])
  {
  }

  /** The `map` over the deduplicated labels. */
  function SpecsFor(s: Shape, names: seq<string>): (r: seq<InputSpec>)
    requires HasAllInputLists(s)
    requires forall i :: 0 <= i < |names| ==> names[i] in AllLabels(s)
    ensures |r| == |names|
    ensures forall i :: 0 <= i < |r| ==> r[i].name == names[i] && FromFirstListing(s, r[i])
  {
    seq(|names|, i requires 0 <= i < |names| => FirstSpec(s, names[i]))
  }

  /** The form's `uniqueInputs`. */
  function UniqueInputs(s: Shape): (r: seq<InputSpec>)
    requires HasAllInputLists(s)
    ensures forall i, j :: 0 <= i < j < |r| ==> r[i].name != r[j].name
    ensures forall i :: 0 <= i < |r| ==> r[i].name in AllLabels(s)
    ensures forall fieldName :: fieldName in AllLabels(s) ==> exists i :: 0 <= i < |r| && r[i].name == fieldName
    ensures forall i, j :: 0 <= i < j < |r| ==>
      IndexOf(AllLabels(s), r[i].name) < IndexOf(AllLabels(s), r[j].name)
    ensures forall i :: 0 <= i < |r| ==> FromFirstListing(s, r[i])
  {
    var names := Dedup(AllLabels(s));
    DedupKeepsFirstOccurrenceOrder(AllLabels(s));
    var r := SpecsFor(s, names);
    assert forall fieldName :: fieldName in AllLabels(s) ==> fieldName in names by {
      forall fieldName | fieldName in AllLabels(s) ensures fieldName in names {
        var i := IndexOf(AllLabels(s), fieldName);
      }
    }
    r
  }

  /** When reused labels carry the same metadata everywhere, the field the
      form shows for a label equals every field of the shape with that
      label, so the "first listing wins" rule never decides anything. */
  lemma UniqueInputsAgreeWithEveryListing(s: Shape, c: string, j: nat, i: nat)
    requires HasAllInputLists(s) && ConsistentReusedLabels(s)
    requires c in s.requiredInputs && j < |s.requiredInputs[c]|
    requires i < |UniqueInputs(s)| && UniqueInputs(s)[i].name == s.requiredInputs[c][j].name
    ensures UniqueInputs(s)[i] == s.requiredInputs[c][j]
  {
    var spec := UniqueInputs(s)[i];
    assert FromFirstListing(s, spec);
  }
}
