/** The application page: which shape is selected and which results are
    shown, together with the state of whichever child is mounted (the
    picker's search text, or the calculation form). */
module Page {
  import opened Wrappers
  import opened Numbers
  import opened Geometry
  import opened Dispatch
  import opened Form
  import opened Selector
  import opened Catalog
  import Agreement

  datatype PageState = PageState(selected: Option<Shape>, results: Results)

  /** Nothing selected, no results. */
  const Start: PageState := PageState(None, map[])

  /** Picking a shape selects it and discards the results shown before. */
  function SelectShape(page: PageState, shape: Shape): (r: PageState)
    ensures r.selected == Some(shape) && r.results == map[]
  {
    PageState(Some(shape), map[])
  }

  /** The form hands over newly computed results. */
  function ReceiveResults(page: PageState, results: Results): (r: PageState)
    ensures r.selected == page.selected && r.results == results
  {
    page.(results := results)
  }

  /** The form's Back button (and Escape): deselects, keeps the results. */
  function Deselect(page: PageState): (r: PageState)
    ensures r.selected.None? && r.results == page.results
  {
    page.(selected := None)
  }

  /** The page with its mounted child: the picker's search text while no
      shape is selected, the form's state while one is. A child that is
      mounted again starts from its initial state. */
  datatype App = App(page: PageState, query: string, form: FormState)

  const Launch: App := App(Start, "", Initial)

  /** What the user can do. */
  datatype Event =
    | Search(text: string)
    | Pick(shape: Shape)
    | Type(fieldName: string, value: string)
    | Key(key: string)
    | CalculateButton
    | ClearButton
    | BackButton

  /** The form's Calculate action: the page takes the results only when
      validation passed. */
  function Submit(m: MathLib, parse: string -> Num, app: App, shape: Shape): App {
    var s := HandleCalculate(m, parse, shape, app.form);
    var page := if s.emitted.Some? then ReceiveResults(app.page, s.emitted.value) else app.page;
    app.(page := page, form := s.form)
  }

  /** One event, on a page that offers `shapes` to the picker. Events aimed
      at the child that is not mounted do nothing, and only a shape the
      picker lists, a button of one of its columns, can be picked. */
  function Step(m: MathLib, parse: string -> Num, shapes: seq<Shape>, app: App, e: Event): App {
    match app.page.selected
    case None =>
      (match e
       case Search(text) => app.(query := text)
       case Pick(shape) =>
         if shape in FilteredShapes(shapes, app.query) then App(SelectShape(app.page, shape), app.query, Initial)
         else app
       case _ => app)
    case Some(shape) =>
      (match e
       case Type(fieldName, value) => app.(form := InputChange(app.form, fieldName, value))
       case CalculateButton => Submit(m, parse, app, shape)
       case ClearButton => app.(form := Clear(app.form))
       case BackButton => App(Deselect(app.page), "", app.form)
       case Key(key) =>
         (match KeyPress(key)
          case Calculate => Submit(m, parse, app, shape)
          case GoBack => App(Deselect(app.page), "", app.form)
          case ClearInputs => app.(form := Clear(app.form))
          case NoAction => app)
       case _ => app)
  }

  /** The results shown next to a selected shape were computed for that
      shape, from some entries (or there are none yet). */
  ghost predicate ShowsOwnResults(m: MathLib, parse: string -> Num, app: App) {
    app.page.selected.Some? ==>
      app.page.results == map[] ||
      exists inputs :: app.page.results == Compute(m, parse, app.page.selected.value.name, inputs)
  }

  lemma LaunchShowsOwnResults(m: MathLib, parse: string -> Num)
    ensures ShowsOwnResults(m, parse, Launch)
  {
  }

  /** No event can make the page show results of another shape. */
  lemma StepKeepsOwnResults(m: MathLib, parse: string -> Num, shapes: seq<Shape>, app: App, e: Event)
    requires ShowsOwnResults(m, parse, app)
    ensures ShowsOwnResults(m, parse, Step(m, parse, shapes, app, e))
  {
    var next := Step(m, parse, shapes, app, e);
    if app.page.selected.Some? && next.page.selected.Some? && next.page.results != app.page.results {
      assert next.page.results == Compute(m, parse, app.page.selected.value.name, app.form.inputs);
    }
  }

  /** Picking a listed shape shows it with no results and a fresh form. */
  lemma PickStartsFresh(m: MathLib, parse: string -> Num, shapes: seq<Shape>, app: App, shape: Shape)
    requires app.page.selected.None? && shape in FilteredShapes(shapes, app.query)
    ensures Step(m, parse, shapes, app, Pick(shape)).page == PageState(Some(shape), map[])
    ensures Step(m, parse, shapes, app, Pick(shape)).form == Initial
  {
  }

  /** Calculate with valid entries shows exactly what the dispatcher
      computes from them; with an invalid entry the page keeps what it
      showed before and the form shows the error. */
  lemma CalculateShowsOrKeeps(m: MathLib, parse: string -> Num, shapes: seq<Shape>, app: App, shape: Shape)
    requires app.page.selected == Some(shape)
    ensures var next := Step(m, parse, shapes, app, CalculateButton);
      && next.form.inputs == app.form.inputs
      && ((forall l :: l in app.form.inputs ==> Positive(parse(app.form.inputs[l]))) ==>
            next.page.results == Compute(m, parse, shape.name, app.form.inputs) && next.form.error == "")
      && (!(forall l :: l in app.form.inputs ==> Positive(parse(app.form.inputs[l]))) ==>
            next.page == app.page && next.form.error != "")
  {
  }

  /** Back, by button or by Escape, returns to the picker: nothing is
      selected, the results shown stay, and the picker is mounted again
      with an empty search that lists every shape. */
  lemma BackReturnsToPicker(m: MathLib, parse: string -> Num, shapes: seq<Shape>, app: App)
    requires app.page.selected.Some?
    ensures forall e | e == BackButton || e == Key("Escape") ::
      var next := Step(m, parse, shapes, app, e);
      && next.page.selected.None?
      && next.page.results == app.page.results
      && next.query == ""
      && FilteredShapes(shapes, next.query) == shapes
  {
    EmptyQueryKeepsAll(shapes);
  }

  /** The keyboard shortcuts do what the buttons do. */
  lemma ShortcutsMatchButtons(m: MathLib, parse: string -> Num, shapes: seq<Shape>, app: App)
    ensures Step(m, parse, shapes, app, Key("Enter")) == Step(m, parse, shapes, app, CalculateButton)
    ensures Step(m, parse, shapes, app, Key("c")) == Step(m, parse, shapes, app, ClearButton)
    ensures Step(m, parse, shapes, app, Key("Escape")) == Step(m, parse, shapes, app, BackButton)
  {
  }

  /** At launch the search text is empty, so the 2D column lists the
      first twelve catalog shapes and the 3D column the other seven, and
      neither shows its notice. */
  lemma LaunchColumns()
    ensures FilteredShapes(Shapes, Launch.query) == Shapes
    ensures ColumnFor(Shapes, TwoD) == Column(Shapes[..12], None)
    ensures ColumnFor(Shapes, ThreeD) == Column(Shapes[12..], None)
    ensures |Shapes[..12]| == 12 && |Shapes[12..]| == 7
  {
    EmptyQueryKeepsAll(Shapes);
    OrderIsPermutation();
    forall i | 0 <= i < |Shapes|
      ensures Shapes[i].category == (if i < 12 then TwoD else ThreeD)
    {
      CategoryByPosition(Order[i]);
    }
    TwoDColumnIsFront(Shapes, 12);
    ThreeDColumnIsBack(Shapes, 12);
  }

  /** The selected shape, if any, is one of `shapes`. */
  predicate SelectsFrom(shapes: seq<Shape>, app: App) {
    app.page.selected.Some? ==> app.page.selected.value in shapes
  }

  lemma LaunchSelectsFrom(shapes: seq<Shape>)
    ensures SelectsFrom(shapes, Launch)
  {
  }

  /** No event selects a shape the page does not offer. */
  lemma StepSelectsFrom(m: MathLib, parse: string -> Num, shapes: seq<Shape>, app: App, e: Event)
    requires SelectsFrom(shapes, app)
    ensures SelectsFrom(shapes, Step(m, parse, shapes, app, e))
  {
    if app.page.selected.None? && e.Pick? {
      var found := FilteredShapes(shapes, app.query);
      if e.shape in found {
        var i :| 0 <= i < |found| && found[i] == e.shape;
      }
    }
  }

  /** On the catalog page, in every state the events keep, the page shows
      either nothing or exactly the results the selected catalog entry
      promises, each in the unit of its label; so the switch's fallback
      for unknown names is never reached from the page. */
  lemma ShownResultsAsPromised(m: MathLib, parse: string -> Num, app: App)
    requires SelectsFrom(Shapes, app) && ShowsOwnResults(m, parse, app)
    requires app.page.selected.Some? && app.page.results != map[]
    ensures exists id :: app.page.selected.value == Definition(id)
    ensures app.page.results.Keys == Agreement.PromisedLabels(app.page.selected.value.calculations)
    ensures Agreement.UnitsFixed(app.page.results)
  {
    var shape := app.page.selected.value;
    var i :| 0 <= i < |Shapes| && Shapes[i] == shape;
    var id := Order[i];
    assert shape == Definition(id);
    var inputs :| app.page.results == Compute(m, parse, shape.name, inputs);
    Agreement.ResultsAsPromised(m, parse, id, inputs);
  }
}
