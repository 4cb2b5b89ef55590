/** The `ShapeCalculator` component's state and its three handlers. The
    four `useState` variables are fields; each handler updates them in
    place and is proved to do exactly what `Session.Step` says of its
    event, so every property proved about `Step` and `Replay` holds of the
    object. */
module Calculator {
  import opened Numbers
  import opened Shapes
  import opened Session

  class ShapeCalculator {
    var shape: string
    var dimensions: map<string, Number>
    var result: Outcome
    var isCalculated: bool

    /** The fields as one session state. */
    function Snapshot(): State
      reads this
    {
      State(shape, dimensions, result, isCalculated)
    }

    /** The object invariant: the flag and the result agree, and a result
        is only ever shown for an offered shape. */
    predicate Valid()
      reads this
    {
      Consistent(Snapshot())
    }

    /** A circle selected, nothing entered, nothing calculated. */
    constructor ()
      ensures Valid()
      ensures Snapshot() == Initial
    {
      shape := "Circle";
      dimensions := map[];
      result := Pending;
      isCalculated := false;
    }

    /** `handleSelectChange`: the chosen name becomes the shape, and the
        dimensions, the result and the flag are reset. */
    method HandleSelectChange(value: string)
      requires Valid()
      modifies this
      ensures Valid()
      ensures shape == value && dimensions == map[] && result == Pending && !isCalculated
      ensures Snapshot() == Step(old(Snapshot()), SelectShape(value))
    {
      shape := value;
      dimensions := map[];
      result := Pending;
      isCalculated := false;
    }

    /** `handleInputChange`: the parsed value is stored under `name`,
        replacing any earlier one; nothing else changes. */
    method HandleInputChange(name: string, value: Number)
      requires Valid()
      modifies this`dimensions
      ensures Valid()
      ensures dimensions == old(dimensions)[name := value]
      ensures Snapshot() == Step(old(Snapshot()), EnterValue(name, value))
    {
      dimensions := dimensions[name := value];
    }

    /** `calculate`: builds the selected shape from the entered dimensions
        and shows its area and perimeter; an unknown shape name returns
        without changing anything. */
    method Calculate()
      requires Valid()
      modifies this`result, this`isCalculated
      ensures Valid()
      ensures Snapshot() == Step(old(Snapshot()), Event.Calculate)
      ensures old(shape) in ShapeOptions ==> isCalculated && result.Measured?
      ensures old(shape) !in ShapeOptions ==> result == old(result) && isCalculated == old(isCalculated)
    {
      var shapeObj: Shape;
      if shape == "Circle" {
        shapeObj := Circle(Lookup(dimensions, "radius"));
      } else if shape == "Rectangle" {
        shapeObj := Rectangle(Lookup(dimensions, "length"), Lookup(dimensions, "width"));
      } else if shape == "Square" {
        shapeObj := Square(Lookup(dimensions, "side"));
      } else if shape == "Triangle" {
        shapeObj := Triangle(Lookup(dimensions, "base"), Lookup(dimensions, "height"),
                             Lookup(dimensions, "sideA"), Lookup(dimensions, "sideB"), Lookup(dimensions, "sideC"));
      } else {
        return;
      }
      var area := Area(shapeObj);
      var perimeter := Perimeter(shapeObj);
      result := Measured(area, perimeter);
      isCalculated := true;
    }
  }

  /** A user picks a square, types a side of 6 and presses calculate, then
      switches to a circle and presses calculate without typing a radius. */
  method ExampleSession()
  {
    var session := new ShapeCalculator();
    session.HandleSelectChange("Square");
    session.HandleInputChange("side", Some(6.0));
    session.Calculate();
    SquareIsRectangle(Some(6.0));
    assert session.result == Measured(Some(36.0), Some(24.0));
    session.HandleSelectChange("Circle");
    session.Calculate();
    assert session.isCalculated && session.result == Measured(None, None);
  }
}
