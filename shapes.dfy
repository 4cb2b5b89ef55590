/** The shape classes of the calculator: the base `Shape` and its
    subclasses `Circle`, `Rectangle`, `Square` (a rectangle built with
    `super(side, side)`) and `Triangle`, each answering `getArea()` and
    `getPerimeter()` from the fields its constructor stored. */
module Shapes {
  import opened Numbers

  /** `Math.PI`, written out to the digits JavaScript prints for it. */
  const PI: real := 3.141592653589793

  /** One variant per class; the fields are what each constructor stores,
      and any of them may be NaN (the calculator passes them unchecked). */
  datatype Shape =
    | Plain
    | Circle(radius: Number)
    | Rectangle(length: Number, width: Number)
    | Square(side: Number)
    | Triangle(base: Number, height: Number, sideA: Number, sideB: Number, sideC: Number)

  /** The class a shape value was built from. */
  function ClassName(s: Shape): string
  {
    match s
    case Plain => "Shape"
    case Circle(_) => "Circle"
    case Rectangle(_, _) => "Rectangle"
    case Square(_) => "Square"
    case Triangle(_, _, _, _, _) => "Triangle"
  }

  /** The fields `getArea()` reads; a square is read as the rectangle whose
      length and width are both its side. */
  function AreaInputs(s: Shape): seq<Number>
  {
    match s
    case Plain => []
    case Circle(r) => [r]
    case Rectangle(l, w) => [l, w]
    case Square(a) => [a, a]
    case Triangle(b, h, _, _, _) => [b, h]
  }

  /** The fields `getPerimeter()` reads. */
  function PerimeterInputs(s: Shape): seq<Number>
  {
    match s
    case Plain => []
    case Circle(r) => [r]
    case Rectangle(l, w) => [l, w]
    case Square(a) => [a, a]
    case Triangle(_, _, x, y, z) => [x, y, z]
  }

  /** `Rectangle.getArea`: length times width. */
  function RectangleArea(length: Number, width: Number): Number
  {
    Mul(length, width)
  }

  /** `Rectangle.getPerimeter`: twice the sum of length and width. */
  function RectanglePerimeter(length: Number, width: Number): Number
  {
    Mul(Some(2.0), Add(length, width))
  }

  /** `getArea()`, dispatched on the class. A square inherits the
      rectangle's method. The result is a real exactly when every field it
      reads is one, and it is never negative when those fields are not. */
  function Area(s: Shape): (a: Number)
    ensures a.Some? <==> AllSet(AreaInputs(s))
    ensures AllNonNegative(AreaInputs(s)) ==> a.Some? && a.value >= 0.0
  {
    match s
    case Plain => Some(0.0)
    case Circle(r) =>
      assert AreaInputs(s)[0] == r;
      Mul(Mul(Some(PI), r), r)
    case Rectangle(l, w) =>
      assert AreaInputs(s)[0] == l && AreaInputs(s)[1] == w;
      RectangleArea(l, w)
    case Square(a) =>
      assert AreaInputs(s)[0] == a;
      RectangleArea(a, a)
    case Triangle(b, h, _, _, _) =>
      assert AreaInputs(s)[0] == b && AreaInputs(s)[1] == h;
      Mul(Mul(Some(0.5), b), h)
  }

  /** `getPerimeter()`, dispatched on the class. A square inherits the
      rectangle's method. Same NaN and sign behaviour as `Area`. */
  function Perimeter(s: Shape): (p: Number)
    ensures p.Some? <==> AllSet(PerimeterInputs(s))
    ensures AllNonNegative(PerimeterInputs(s)) ==> p.Some? && p.value >= 0.0
  {
    match s
    case Plain => Some(0.0)
    case Circle(r) =>
      assert PerimeterInputs(s)[0] == r;
      Mul(Mul(Some(2.0), Some(PI)), r)
    case Rectangle(l, w) =>
      assert PerimeterInputs(s)[0] == l && PerimeterInputs(s)[1] == w;
      RectanglePerimeter(l, w)
    case Square(a) =>
      assert PerimeterInputs(s)[0] == a;
      RectanglePerimeter(a, a)
    case Triangle(_, _, x, y, z) =>
      assert PerimeterInputs(s)[0] == x && PerimeterInputs(s)[1] == y && PerimeterInputs(s)[2] == z;
      Add(Add(x, y), z)
  }

  /** `Square` adds nothing to `Rectangle`: a square of side `a` has the
      area and perimeter of the `a` by `a` rectangle, that is `a*a` and `4*a`. */
  lemma SquareIsRectangle(side: Number)
    ensures Area(Square(side)) == Area(Rectangle(side, side))
    ensures Perimeter(Square(side)) == Perimeter(Rectangle(side, side))
    ensures side.Some? ==> Area(Square(side)) == Some(side.value * side.value)
    ensures side.Some? ==> Perimeter(Square(side)) == Some(4.0 * side.value)
  {
  }

  /** A rectangle's area is `length*width` and its perimeter
      `2*(length+width)`; neither changes when length and width swap. */
  lemma RectangleFormulas(length: real, width: real)
    ensures Area(Rectangle(Some(length), Some(width))) == Some(length * width)
    ensures Perimeter(Rectangle(Some(length), Some(width))) == Some(2.0 * (length + width))
    ensures Area(Rectangle(Some(length), Some(width))) == Area(Rectangle(Some(width), Some(length)))
    ensures Perimeter(Rectangle(Some(length), Some(width))) == Perimeter(Rectangle(Some(width), Some(length)))
  {
    assert Area(Rectangle(Some(length), Some(width))) == RectangleArea(Some(length), Some(width));
  }

  /** A circle's area is `PI*r*r` and its perimeter `2*PI*r`, so the area is
      the perimeter times half the radius. */
  lemma CircleAreaFromPerimeter(radius: real)
    ensures Area(Circle(Some(radius))) == Some(PI * radius * radius)
    ensures Perimeter(Circle(Some(radius))) == Some(2.0 * PI * radius)
    ensures Area(Circle(Some(radius))).value == radius / 2.0 * Perimeter(Circle(Some(radius))).value
  {
    assert Area(Circle(Some(radius))) == Mul(Mul(Some(PI), Some(radius)), Some(radius));
    assert Area(Circle(Some(radius))).value == PI * radius * radius;
    assert Perimeter(Circle(Some(radius))).value == 2.0 * PI * radius;
  }

  /** Two shapes of the same class whose area fields agree have the same
      area: a triangle's area ignores its three sides. */
  lemma AreaReadsOnlyItsInputs(s: Shape, t: Shape)
    requires ClassName(s) == ClassName(t) && AreaInputs(s) == AreaInputs(t)
    ensures Area(s) == Area(t)
  {
  }

  /** Two shapes of the same class whose perimeter fields agree have the
      same perimeter: a triangle's perimeter ignores its base and height. */
  lemma PerimeterReadsOnlyItsInputs(s: Shape, t: Shape)
    requires ClassName(s) == ClassName(t) && PerimeterInputs(s) == PerimeterInputs(t)
    ensures Perimeter(s) == Perimeter(t)
  {
  }

  /** A triangle's perimeter is the sum of its sides and its area half of
      base times height, whatever the numbers: the sides need not satisfy
      the triangle inequality, nor be related to base and height. */
  lemma TriangleUnchecked(base: real, height: real, a: real, b: real, c: real)
    ensures Area(Triangle(Some(base), Some(height), Some(a), Some(b), Some(c))) == Some(0.5 * base * height)
    ensures Perimeter(Triangle(Some(base), Some(height), Some(a), Some(b), Some(c))) == Some(a + b + c)
  {
  }

  /** Worked examples: a 5 by 4 rectangle, a square of side 6, a triangle
      with base 10, height 8 and sides 6, 8, 10, a circle of radius 10, and a
      "triangle" with sides 1, 2 and 10; a circle without a radius is NaN. */
  lemma Examples()
    ensures Area(Rectangle(Some(5.0), Some(4.0))) == Some(20.0)
    ensures Perimeter(Rectangle(Some(5.0), Some(4.0))) == Some(18.0)
    ensures Area(Square(Some(6.0))) == Some(36.0) && Perimeter(Square(Some(6.0))) == Some(24.0)
    ensures Area(Triangle(Some(10.0), Some(8.0), Some(6.0), Some(8.0), Some(10.0))) == Some(40.0)
    ensures Perimeter(Triangle(Some(10.0), Some(8.0), Some(6.0), Some(8.0), Some(10.0))) == Some(24.0)
    ensures 314.155 <= Area(Circle(Some(10.0))).value < 314.165
    ensures 62.825 <= Perimeter(Circle(Some(10.0))).value < 62.835
    ensures Perimeter(Triangle(None, None, Some(1.0), Some(2.0), Some(10.0))) == Some(13.0)
    ensures Area(Circle(None)) == None && Perimeter(Circle(None)) == None
  {
  }
}
