# shapeCalc in Dafny

A model of the shape calculator in `app/page.jsx`. It has two parts.

- **The shape classes.** The base `Shape` and its subclasses `Circle`,
  `Rectangle`, `Square` and `Triangle` become one datatype `Shapes.Shape`,
  with one variant per class. `Shapes.Area` and `Shapes.Perimeter` stand for
  `getArea()` and `getPerimeter()` and dispatch on the variant. `Square`
  holds only its side and uses the rectangle formulas with length and width
  both equal to it, as `super(side, side)` does.
- **The `ShapeCalculator` component state.** The four `useState` variables
  (`shape`, `dimensions`, `result`, `isCalculated`) are the fields of the
  class `Calculator.ShapeCalculator`. Its methods `HandleSelectChange`,
  `HandleInputChange` and `Calculate` update them in place. Each method is
  proved to agree with `Session.Step`, a function on session values. The
  properties of whole sessions are lemmas about `Step` and `Replay`.

JavaScript numbers are modelled without floating point. A number is
`Numbers.Number = Option<real>`, and `None` stands for `NaN` or
`undefined`. `Add` and `Mul` return `None` as soon as either operand is
`None`, which is how JavaScript arithmetic spreads `NaN`. A dimension that
was never entered is simply absent from the `dimensions` map and reads as
`None`. `Math.PI` is the constant `Shapes.PI = 3.141592653589793`. Apart
from the worked circle example, the proofs use only the fact that it is
positive.

The selector offers only the four names of `shapeOptions`
(app/page.jsx:72, 280-284). `handleSelectChange` (app/page.jsx:84-89)
stores whatever value it is given, and the `default: return` of
`calculate` (app/page.jsx:116-117) leaves the state unchanged for a name it
does not know. The model keeps both behaviours: a selected shape is any
string, and `Session.Construct` answers `None` for a name outside the four.

Areas and perimeters are functions, so asking twice for the same shape
gives the same answer by construction. No lemma is needed for that.

Two worked scenarios sit beside the lemmas. `Shapes.Examples` checks the
formulas on concrete dimensions. `Calculator.ExampleSession` drives one
`ShapeCalculator` object through a session: select a square, enter a side
of 6 and calculate, which shows 36 and 24; then select a circle and
calculate at once, which shows NaN for both.

## Model

| member | source | states |
|---|---|---|
| `Numbers.Add` | app/page.jsx:67-69 | `+` gives a number exactly when both operands are numbers, and a sum of non-negative numbers is non-negative |
| `Numbers.Mul` | app/page.jsx:27-31 | `*` gives a number exactly when both operands are numbers, and a product of non-negative numbers is non-negative |
| `Shapes.Area` | app/page.jsx:13-70 | `getArea()` is a number exactly when every field it reads is one, and it is at least 0 when those fields are non-negative |
| `Shapes.Perimeter` | app/page.jsx:13-70 | `getPerimeter()` is a number exactly when every field it reads is one, and it is at least 0 when those fields are non-negative |
| `Shapes.SquareIsRectangle` | app/page.jsx:49-53 | a square of side `a` has the area and perimeter of the `a` by `a` rectangle, namely `a*a` and `4*a` |
| `Shapes.RectangleFormulas` | app/page.jsx:41-46 | a rectangle's area is `length*width` and its perimeter `2*(length+width)`, and both stay the same when length and width are swapped |
| `Shapes.CircleAreaFromPerimeter` | app/page.jsx:27-32 | a circle's area is `PI*r*r`, its perimeter is `2*PI*r`, and the area equals `r/2` times the perimeter |
| `Shapes.AreaReadsOnlyItsInputs` | app/page.jsx:64-66 | two shapes of the same class whose area fields agree have equal areas, so a triangle's area ignores its sides |
| `Shapes.PerimeterReadsOnlyItsInputs` | app/page.jsx:67-69 | two shapes of the same class whose perimeter fields agree have equal perimeters, so a triangle's perimeter ignores base and height |
| `Shapes.TriangleUnchecked` | app/page.jsx:55-70 | for any five reals, the triangle's area is `0.5*base*height` and its perimeter is `a+b+c`; no triangle inequality is required |
| `Shapes.Examples` | app/page.jsx:22-70 | worked values: rectangle 5 by 4 gives 20 and 18; square 6 gives 36 and 24; triangle (10, 8, 6, 8, 10) gives 40 and 24; circle 10 gives about 314.16 and 62.83; sides 1, 2, 10 give perimeter 13; a circle with no radius gives NaN for both |
| `Session.Initial` | app/page.jsx:75-78 | definition without a contract: the four `useState` initial values, `"Circle"`, an empty map, a `null` result and `false` |
| `Session.Lookup` | app/page.jsx:99-113 | definition without a contract: reading `dimensions.<key>`, which is `undefined` (here `None`) when no value was entered under that key |
| `Session.Step` | app/page.jsx:84-123 | definition without a contract: the effect of one handler call on the four state variables; its properties are the `Session` lemmas below, and the class methods are proved to agree with it |
| `Session.Construct` | app/page.jsx:96-118 | the `switch` builds a shape exactly for the four offered names; the shape is of the named class, and its area and perimeter fields are the values entered under the matching keys |
| `Session.SelectResets` | app/page.jsx:84-89 | selecting a shape sets `shape` to the choice, empties `dimensions`, clears `result` and clears `isCalculated`, whatever the earlier state |
| `Session.EnterValueChangesOneKey` | app/page.jsx:91-93 | entering a value changes only `dimensions[name]`; every other key, `shape`, `result` and `isCalculated` stay the same; a later value for the same name replaces it |
| `Session.CalculateMeasures` | app/page.jsx:95-123 | on an offered shape, `calculate` sets `isCalculated` and shows a result in which each measurement is a number exactly when every dimension it needs was entered as one; on any other name it changes nothing |
| `Session.CalculateShowsMeasures` | app/page.jsx:95-123 | on an offered shape, the result `calculate` shows is the `getArea()` and `getPerimeter()` of any shape of that class whose fields hold the values entered under the matching keys |
| `Session.CalculateRectangle` | app/page.jsx:101-103 | with the rectangle selected and a length `l` and width `w` entered, `calculate` shows `l*w` and `2*(l+w)` |
| `Session.CalculateIdempotent` | app/page.jsx:95-123 | calculating twice in a row leaves the same state as calculating once |
| `Session.CalculateAfterSelectIsNaN` | app/page.jsx:84-123 | calculating right after selecting an offered shape shows NaN for both the area and the perimeter |
| `Session.StepConsistent` | app/page.jsx:84-123 | each handler keeps the invariant: `isCalculated` holds exactly when a result is shown, and a result is shown only for an offered shape |
| `Session.ReplayConsistent` | app/page.jsx:74-123 | every sequence of user events starting from a consistent state, such as the initial one, ends in a consistent state |
| `Session.ReplayAppend` | app/page.jsx:74-123 | running two sequences of events one after the other is the same as running their concatenation |
| `Session.EnteringValuesKeepsResult` | app/page.jsx:91-93 | any run of value entries keeps `shape`, `result` and `isCalculated` unchanged, and keeps every dimension that none of the entries names |
| `Session.SelectForgetsHistory` | app/page.jsx:84-89 | after a shape is selected, the session no longer depends on any earlier event or state |
| `Calculator.ShapeCalculator.constructor` | app/page.jsx:75-78 | the initial state: `"Circle"`, no dimensions, no result, not calculated |
| `Calculator.ShapeCalculator.HandleSelectChange` | app/page.jsx:84-89 | sets the four fields as `Step` does for a selection, and keeps the invariant |
| `Calculator.ShapeCalculator.HandleInputChange` | app/page.jsx:91-93 | writes the one key `name` of `dimensions` and nothing else, as `Step` does for an entry |
| `Calculator.ShapeCalculator.Calculate` | app/page.jsx:95-123 | builds the selected shape and stores its area and perimeter, or returns with nothing changed for an unknown name, as `Step` does |

## Left out

- Rendering: the JSX, the `Select`, `Input`, `Card` and `Button` components and the result panel (app/page.jsx:125-333). These are presentation only.
- `app/shape-animations.jsx`: the framer-motion animations and the canvas drawing. Their clamps only size the picture and never feed back into results.
- Floating point: the binary rounding of `Math.PI` and of every product and sum is not modelled. Arithmetic is exact on reals.
- `NaN` as a value: it is replaced by `None`, which spreads through `+` and `*` the same way. Infinities are not modelled.
- `Number.parseFloat` (app/page.jsx:81, 92): its result is taken as an input to `HandleInputChange`, either a real or `None`.
- `toFixed(2)` display formatting (app/page.jsx:319, 323).
- React specifics: setter batching, re-rendering and stale closures over `dimensions`. Each handler is modelled as one atomic update.
- The unused duplicate handler `handleChange` (app/page.jsx:80-82). It does what `handleInputChange` does with the name taken from the event target.
