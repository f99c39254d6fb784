/** The calculation form's state and its transitions: typing into a
    field, clearing, the keyboard shortcuts, and the Calculate handler,
    which validates every entered value before dispatching. */
module Form {
  import opened Wrappers
  import opened Numbers
  import opened Geometry
  import opened Dispatch

  /** The entered strings by field label, and the error line shown under
      the fields ("" when there is none). */
  datatype FormState = FormState(inputs: map<string, string>, error: string)

  /** A freshly mounted form: nothing entered, no error. */
  const Initial: FormState := FormState(map[], "")

  const InvalidNumberMessage: string := "Please enter valid numbers for all inputs"
  const NonPositiveMessage: string := "All measurements must be greater than 0"

  /** Typing into the field `fieldName`. */
  function InputChange(form: FormState, fieldName: string, value: string): (r: FormState)
    ensures fieldName in r.inputs && r.inputs[fieldName] == value
    ensures forall l :: l != fieldName ==> (l in r.inputs <==> l in form.inputs)
    ensures forall l :: l != fieldName && l in form.inputs ==> r.inputs[l] == form.inputs[l]
    ensures r.error == form.error
  {
    form.(inputs := form.inputs[fieldName := value])
  }

  /** The Clear button and the "c" key: back to the freshly mounted form. */
  function Clear(form: FormState): FormState {
    Initial
  }

  /** Typing into the same field twice keeps only the second value. */
  lemma LastChangeWins(form: FormState, fieldName: string, first: string, second: string)
    ensures InputChange(InputChange(form, fieldName, first), fieldName, second)
         == InputChange(form, fieldName, second)
  {
    assert InputChange(InputChange(form, fieldName, first), fieldName, second).inputs
        == InputChange(form, fieldName, second).inputs;
  }

  /** Changes to two different fields do not interfere. */
  lemma ChangesCommute(form: FormState, a: string, x: string, b: string, y: string)
    requires a != b
    ensures InputChange(InputChange(form, a, x), b, y) == InputChange(InputChange(form, b, y), a, x)
  {
    assert InputChange(InputChange(form, a, x), b, y).inputs
        == InputChange(InputChange(form, b, y), a, x).inputs;
  }

  /** Clearing forgets every entry and the error, whatever came before. */
  lemma ClearForgetsEverything(form: FormState, fieldName: string, value: string)
    ensures Clear(InputChange(form, fieldName, value)) == Clear(form)
    ensures Clear(form).inputs == map[] && Clear(form).error == ""
  {
  }

  /** What a key press inside the form does. */
  datatype KeyAction = Calculate | GoBack | ClearInputs | NoAction

  function KeyPress(key: string): (a: KeyAction)
    ensures a == Calculate <==> key == "Enter"
    ensures a == GoBack <==> key == "Escape"
    ensures a == ClearInputs <==> key == "c"
  {
    if key == "Enter" then Calculate
    else if key == "Escape" then GoBack
    else if key == "c" then ClearInputs
    else NoAction
  }

  // Validation

  /** Some entered value does not parse as a number. */
  predicate SomeNotANumber(parse: string -> Num, inputs: map<string, string>) {
    exists l :: l in inputs && IsNaN(parse(inputs[l]))
  }

  /** Some entered value parses to a number that is not positive. */
  predicate SomeNotPositive(parse: string -> Num, inputs: map<string, string>) {
    exists l :: l in inputs && AtMostZero(parse(inputs[l]))
  }

  /** The message validation raises, if any: the NaN check comes first. */
  function ValidationError(parse: string -> Num, inputs: map<string, string>): (e: Option<string>)
    ensures e.None? <==> forall l :: l in inputs ==> Positive(parse(inputs[l]))
    ensures e.Some? ==> e.value == InvalidNumberMessage || e.value == NonPositiveMessage
  {
    if SomeNotANumber(parse, inputs) then Some(InvalidNumberMessage)
    else if SomeNotPositive(parse, inputs) then Some(NonPositiveMessage)
    else None
  }

  /** The form after Calculate, and the results handed to the page (None
      when validation failed and the page is not called). */
  datatype Submission = Submission(form: FormState, emitted: Option<Results>)

  /** Calculate: validate every entered value, then dispatch on the shape
      name. Success clears the error; failure shows it and emits nothing.
      The entered strings are kept either way. */
  function HandleCalculate(m: MathLib, parse: string -> Num, shape: Shape, form: FormState): (s: Submission)
    ensures s.form.inputs == form.inputs
    ensures s.emitted.Some? <==> forall l :: l in form.inputs ==> Positive(parse(form.inputs[l]))
    ensures s.emitted.Some? ==> s.form.error == "" && s.emitted.value == Compute(m, parse, shape.name, form.inputs)
    ensures s.emitted.None? ==> s.form.error in {InvalidNumberMessage, NonPositiveMessage}
  {
    match ValidationError(parse, form.inputs)
    case Some(message) => Submission(form.(error := message), None)
    case None => Submission(form.(error := ""), Some(Compute(m, parse, shape.name, form.inputs)))
  }

  /** An unparsable entry is reported as such even when another entry is
      zero or negative. */
  lemma NotANumberTakesPrecedence(m: MathLib, parse: string -> Num, shape: Shape, form: FormState, bad: string)
    requires bad in form.inputs && IsNaN(parse(form.inputs[bad]))
    ensures HandleCalculate(m, parse, shape, form) == Submission(form.(error := InvalidNumberMessage), None)
  {
  }

  /** With every entry a number, a zero or negative one is reported. */
  lemma NonPositiveReported(m: MathLib, parse: string -> Num, shape: Shape, form: FormState, low: string)
    requires forall l :: l in form.inputs ==> !IsNaN(parse(form.inputs[l]))
    requires low in form.inputs && AtMostZero(parse(form.inputs[low]))
    ensures HandleCalculate(m, parse, shape, form) == Submission(form.(error := NonPositiveMessage), None)
  {
  }

  /** Only entered values are validated: an empty form always passes, and
      a field left empty reaches its formula as NaN. */
  lemma EmptyFormPasses(m: MathLib, parse: string -> Num, shape: Shape, fieldName: string)
    ensures HandleCalculate(m, parse, shape, Initial) == Submission(Initial, Some(Compute(m, parse, shape.name, map[])))
    ensures Read(parse, Initial.inputs, fieldName) == NaN
  {
  }

  /** A field that was typed into and then emptied holds "", which
      `Number` reads as 0, so the form reports a non-positive value. */
  lemma EmptiedFieldIsZero(m: MathLib, parse: string -> Num, shape: Shape, form: FormState, fieldName: string)
    requires parse("") == Fin(0.0)
    requires forall l :: l in form.inputs ==> !IsNaN(parse(form.inputs[l]))
    ensures HandleCalculate(m, parse, shape, InputChange(form, fieldName, "")).form.error == NonPositiveMessage
  {
    var changed := InputChange(form, fieldName, "");
    assert AtMostZero(parse(changed.inputs[fieldName]));
  }
}
