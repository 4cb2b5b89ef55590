/** The state of one `ShapeCalculator` session as values: the selected
    shape name, the map of entered dimensions, the last result and the
    `isCalculated` flag, and the three user events that change them. The
    class in module Calculator is proved to follow `Step`. */
module Session {
  import opened Numbers
  import opened Shapes

  /** The names the shape selector offers, one per concrete shape class. */
  const ShapeOptions: seq<string> := ["Circle", "Rectangle", "Square", "Triangle"]

  /** The `result` variable: `{area: null, perimeter: null}` until a
      calculation, then the two numbers it produced (each possibly NaN). */
  datatype Outcome = Pending | Measured(area: Number, perimeter: Number)

  datatype State = State(shape: string, dimensions: map<string, Number>, result: Outcome, isCalculated: bool)

  /** `handleSelectChange(value)`, `handleInputChange(name, value)` (with
      the parsed number) and `calculate()`. */
  datatype Event = SelectShape(choice: string) | EnterValue(name: string, value: Number) | Calculate

  /** The `useState` initial values. */
  const Initial: State := State("Circle", map[], Pending, false)

  /** `dimensions[key]`: undefined, hence NaN, when nothing was entered. */
  function Lookup(dimensions: map<string, Number>, key: string): Number
  {
    if key in dimensions then dimensions[key] else None
  }

  /** The entered values for `keys`, in order. */
  function LookupAll(dimensions: map<string, Number>, keys: seq<string>): (xs: seq<Number>)
    ensures |xs| == |keys|
    ensures forall i :: 0 <= i < |keys| ==> xs[i] == Lookup(dimensions, keys[i])
  {
    if keys == [] then [] else [Lookup(dimensions, keys[0])] + LookupAll(dimensions, keys[1..])
  }

  /** The dimension names whose values reach `getArea()` of a `kind`, one
      per field the area reads (a square reads its side twice). */
  function AreaKeys(kind: string): seq<string>
  {
    if kind == "Circle" then ["radius"]
    else if kind == "Rectangle" then ["length", "width"]
    else if kind == "Square" then ["side", "side"]
    else if kind == "Triangle" then ["base", "height"]
    else []
  }

  /** The dimension names whose values reach `getPerimeter()` of a `kind`. */
  function PerimeterKeys(kind: string): seq<string>
  {
    if kind == "Circle" then ["radius"]
    else if kind == "Rectangle" then ["length", "width"]
    else if kind == "Square" then ["side", "side"]
    else if kind == "Triangle" then ["sideA", "sideB", "sideC"]
    else []
  }

  /** The `switch (shape)` of `calculate`: the shape object built from the
      entered dimensions, or `None` for a name it does not know (the
      `default: return`). The object is of the named class and its area and
      perimeter fields are the values entered under the matching keys. */
  function Construct(kind: string, dimensions: map<string, Number>): (s: Option<Shape>)
    ensures s.Some? <==> kind in ShapeOptions
    ensures s.Some? ==> ClassName(s.value) == kind
    ensures s.Some? ==> AreaInputs(s.value) == LookupAll(dimensions, AreaKeys(kind))
    ensures s.Some? ==> PerimeterInputs(s.value) == LookupAll(dimensions, PerimeterKeys(kind))
  {
    var d := dimensions;
    if kind == "Circle" then Some(Circle(Lookup(d, "radius")))
    else if kind == "Rectangle" then Some(Rectangle(Lookup(d, "length"), Lookup(d, "width")))
    else if kind == "Square" then Some(Square(Lookup(d, "side")))
    else if kind == "Triangle" then
      Some(Triangle(Lookup(d, "base"), Lookup(d, "height"),
                    Lookup(d, "sideA"), Lookup(d, "sideB"), Lookup(d, "sideC")))
    else None
  }

  /** One event applied to the session state. */
  function Step(st: State, e: Event): State
  {
    match e
    case SelectShape(choice) => State(choice, map[], Pending, false)
    case EnterValue(name, value) => st.(dimensions := st.dimensions[name := value])
    case Calculate =>
      match Construct(st.shape, st.dimensions)
      case None => st
      case Some(s) => st.(result := Measured(Area(s), Perimeter(s)), isCalculated := true)
  }

  /** A session: the events applied one after the other. */
  function Replay(st: State, events: seq<Event>): State
    decreases |events|
  {
    if events == [] then st else Replay(Step(st, events[0]), events[1..])
  }

  /** What every reachable state satisfies: a result is shown exactly when
      `isCalculated` is set, and only ever for one of the offered shapes. */
  predicate Consistent(st: State)
  {
    && (st.isCalculated <==> st.result.Measured?)
    && (st.isCalculated ==> st.shape in ShapeOptions)
  }

  /** Selecting a shape stores the name, empties the dimensions and clears
      the result, whatever the state was before. */
  lemma SelectResets(st: State, value: string)
    ensures Step(st, SelectShape(value)) == State(value, map[], Pending, false)
  {
  }

  /** Entering a value changes the one dimension it names and nothing else;
      a later value for the same name replaces it. */
  lemma EnterValueChangesOneKey(st: State, name: string, value: Number, key: string)
    ensures Step(st, EnterValue(name, value)).(dimensions := st.dimensions) == st
    ensures Lookup(Step(st, EnterValue(name, value)).dimensions, key)
            == if key == name then value else Lookup(st.dimensions, key)
    ensures forall later: Number ::
              Step(Step(st, EnterValue(name, value)), EnterValue(name, later)) == Step(st, EnterValue(name, later))
  {
  }

  /** `calculate` on an offered shape shows both measurements of the shape
      built from the entered dimensions and sets `isCalculated`; each
      measurement is a number exactly when every dimension it needs was
      entered as one. On any other name it changes nothing. */
  lemma CalculateMeasures(st: State)
    ensures st.shape !in ShapeOptions ==> Step(st, Calculate) == st
    ensures st.shape in ShapeOptions ==>
              var after := Step(st, Calculate);
              && after.(result := st.result, isCalculated := st.isCalculated) == st
              && after.isCalculated
              && after.result.Measured?
              && (after.result.area.Some? <==> AllSet(LookupAll(st.dimensions, AreaKeys(st.shape))))
              && (after.result.perimeter.Some? <==> AllSet(LookupAll(st.dimensions, PerimeterKeys(st.shape))))
  {
  }

  /** The values `calculate` shows on an offered shape are the area and
      perimeter of any shape of that class whose fields hold the entered
      dimensions: the result is `getArea()` and `getPerimeter()` of the
      object built from the form. */
  lemma CalculateShowsMeasures(st: State, t: Shape)
    requires ClassName(t) == st.shape
    requires AreaInputs(t) == LookupAll(st.dimensions, AreaKeys(st.shape))
    requires PerimeterInputs(t) == LookupAll(st.dimensions, PerimeterKeys(st.shape))
    ensures st.shape in ShapeOptions ==> Step(st, Calculate).result == Measured(Area(t), Perimeter(t))
  {
    if st.shape in ShapeOptions {
      var built := Construct(st.shape, st.dimensions).value;
      AreaReadsOnlyItsInputs(built, t);
      PerimeterReadsOnlyItsInputs(built, t);
    }
  }

  /** End to end for a rectangle: with a length `l` and a width `w` entered,
      `calculate` shows `l*w` and `2*(l+w)`. */
  lemma CalculateRectangle(st: State, l: real, w: real)
    requires st.shape == "Rectangle"
    requires Lookup(st.dimensions, "length") == Some(l) && Lookup(st.dimensions, "width") == Some(w)
    ensures Step(st, Calculate).result == Measured(Some(l * w), Some(2.0 * (l + w)))
  {
    RectangleFormulas(l, w);
  }

  /** Calculating twice in a row shows the same as calculating once. */
  lemma CalculateIdempotent(st: State)
    ensures Step(Step(st, Calculate), Calculate) == Step(st, Calculate)
  {
  }

  /** Calculating right after selecting a shape, before any value is
      entered, shows NaN for both measurements. */
  lemma CalculateAfterSelectIsNaN(st: State, value: string)
    requires value in ShapeOptions
    ensures Replay(st, [SelectShape(value), Calculate]) == State(value, map[], Measured(None, None), true)
  {
    var selected := Step(st, SelectShape(value));
    assert [SelectShape(value), Calculate][1..] == [Calculate];
    assert Replay(st, [SelectShape(value), Calculate]) == Replay(selected, [Calculate]);
    CalculateMeasures(selected);
    assert LookupAll(map[], AreaKeys(value))[0] == None;
    assert LookupAll(map[], PerimeterKeys(value))[0] == None;
  }

  /** Every event keeps a state consistent. */
  lemma StepConsistent(st: State, e: Event)
    requires Consistent(st)
    ensures Consistent(Step(st, e))
  {
  }

  /** Every session that starts from a consistent state, in particular from
      the initial one, stays consistent. */
  lemma {:induction false} ReplayConsistent(st: State, events: seq<Event>)
    requires Consistent(st)
    ensures Consistent(Replay(st, events))
    decreases |events|
  {
    if events != [] {
      StepConsistent(st, events[0]);
      ReplayConsistent(Step(st, events[0]), events[1..]);
    }
  }

  /** A session split in two is the second part replayed from where the
      first part left off. */
  lemma {:induction false} ReplayAppend(st: State, first: seq<Event>, second: seq<Event>)
    ensures Replay(st, first + second) == Replay(Replay(st, first), second)
    decreases |first|
  {
    if first != [] {
      assert (first + second)[0] == first[0];
      assert (first + second)[1..] == first[1..] + second;
      assert Replay(st, first + second) == Replay(Step(st, first[0]), first[1..] + second);
      ReplayAppend(Step(st, first[0]), first[1..], second);
    } else {
      assert first + second == second;
    }
  }

  /** Typing values in never touches the shape, the result or the flag, and
      leaves every dimension no event names as it was. */
  lemma {:induction false} EnteringValuesKeepsResult(st: State, events: seq<Event>, key: string)
    requires forall i :: 0 <= i < |events| ==> events[i].EnterValue?
    ensures Replay(st, events).shape == st.shape
    ensures Replay(st, events).result == st.result
    ensures Replay(st, events).isCalculated == st.isCalculated
    ensures (forall i :: 0 <= i < |events| ==> events[i].name != key) ==>
              Lookup(Replay(st, events).dimensions, key) == Lookup(st.dimensions, key)
    decreases |events|
  {
    if events != [] {
      EnteringValuesKeepsResult(Step(st, events[0]), events[1..], key);
    }
  }

  /** After a shape is selected, the session no longer depends on anything
      that happened before: two sessions that differ only before the
      selection end in the same state. */
  lemma SelectForgetsHistory(st1: State, st2: State, earlier1: seq<Event>, earlier2: seq<Event>,
                             value: string, later: seq<Event>)
    ensures Replay(st1, earlier1 + [SelectShape(value)] + later)
         == Replay(st2, earlier2 + [SelectShape(value)] + later)
  {
    ReplayAppend(st1, earlier1, [SelectShape(value)] + later);
    ReplayAppend(st2, earlier2, [SelectShape(value)] + later);
    assert earlier1 + [SelectShape(value)] + later == earlier1 + ([SelectShape(value)] + later);
    assert earlier2 + [SelectShape(value)] + later == earlier2 + ([SelectShape(value)] + later);
    assert ([SelectShape(value)] + later)[1..] == later;
  }
}
