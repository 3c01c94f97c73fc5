/**
 * The two classes of the rectangle program, with their fields updated in place
 * as the C++ setters and `scaleBy3` do. Each object's state is read back as a
 * `Geometry` value through `Value()`, and every member is specified against
 * that value.
 */
module Shapes {
  import opened Geometry

  /** An exact location in the plane. */
  class Point {
    var px: real
    var py: real

    function Value(): PointValue
      reads this
    {
      PointValue(px, py)
    }

    /** A new point is at the origin. */
    constructor ()
      ensures Value() == Origin
    {
      px := 0.0;
      py := 0.0;
    }

    function GetX(): (x: real)
      reads this
      ensures x == Value().x
    {
      px
    }

    function GetY(): (y: real)
      reads this
      ensures y == Value().y
    {
      py
    }

    /** Replaces the x-coordinate and leaves the y-coordinate alone. */
    method SetX(x: real)
      modifies this
      ensures GetX() == x && GetY() == old(GetY())
    {
      px := x;
    }

    /** Replaces the y-coordinate and leaves the x-coordinate alone. */
    method SetY(y: real)
      modifies this
      ensures GetY() == y && GetX() == old(GetX())
    {
      py := y;
    }
  }

  /** An axis-aligned rectangle. Its bottom-left corner is a `Point` that the
      rectangle owns: it is allocated with the rectangle and never shared. */
  class Rectangle {
    var name: string
    const blPoint: Point
    var length: real
    var height: real

    function Value(): RectangleValue
      reads this, blPoint
    {
      RectangleValue(name, blPoint.Value(), length, height)
    }

    /** A new rectangle is named "NoName", sits at the origin and has zero
        length and height. */
    constructor ()
      ensures Value() == DefaultRectangle
      ensures fresh(blPoint)
    {
      name := DefaultName;
      blPoint := new Point();
      length := 0.0;
      height := 0.0;
    }

    /** The copy made by `Rectangle rec = rectangles[i]`: a new rectangle, with
        its own corner, holding the same values. */
    constructor Copy(v: RectangleValue)
      ensures Value() == v
      ensures fresh(blPoint)
    {
      var corner := new Point();
      corner.SetX(v.bottomLeft.x);
      corner.SetY(v.bottomLeft.y);
      name := v.name;
      blPoint := corner;
      length := v.length;
      height := v.height;
    }

    /** Replaces the name; the corner and the extents are unchanged. */
    method SetName(inName: string)
      modifies this
      ensures Value() == old(Value()).(name := inName)
    {
      name := inName;
    }

    /** Moves the bottom-left corner to (x, y); name and extents are unchanged. */
    method SetBottomLeft(x: real, y: real)
      modifies blPoint
      ensures Value() == old(Value()).(bottomLeft := PointValue(x, y))
    {
      blPoint.SetX(x);
      blPoint.SetY(y);
    }

    /** Replaces length and height, without checking them; name and corner are
        unchanged. */
    method SetDimensions(inLength: real, inHeight: real)
      modifies this
      ensures Value() == old(Value()).(length := inLength, height := inHeight)
    {
      length := inLength;
      height := inHeight;
    }

    function GetName(): (n: string)
      reads this, blPoint
      ensures n == Value().name
    {
      name
    }

    /** A copy of the corner, as a value. */
    function GetBottomLeft(): (p: PointValue)
      reads this, blPoint
      ensures p == Value().bottomLeft
    {
      blPoint.Value()
    }

    function GetLength(): (l: real)
      reads this, blPoint
      ensures l == Value().length
    {
      length
    }

    function GetHeight(): (h: real)
      reads this, blPoint
      ensures h == Value().height
    {
      height
    }

    function Area(): (a: real)
      reads this, blPoint
      ensures a == Geometry.Area(Value())
    {
      length * height
    }

    function Perimeter(): (p: real)
      reads this, blPoint
      ensures p == Geometry.Perimeter(Value())
    {
      2.0 * length + 2.0 * height
    }

    function MidPoint(): (m: PointValue)
      reads this, blPoint
      ensures m == Geometry.MidPoint(Value())
    {
      PointValue(blPoint.GetX() + length / 2.0, blPoint.GetY() + height / 2.0)
    }

    /** Scales the rectangle by 3 about its midpoint, in place: the corner is
        shifted with the old extents first, then the extents are tripled. The
        name and the midpoint are kept. */
    method ScaleBy3()
      modifies this, blPoint
      ensures Value() == ScaledBy3(old(Value()))
      ensures MidPoint() == old(MidPoint())
    {
      blPoint.SetX(blPoint.GetX() - length);
      blPoint.SetY(blPoint.GetY() - height);
      length := length * 3.0;
      height := height * 3.0;
    }

    /** The read-only report `display` prints: location, extents, area,
        perimeter and midpoint. */
    function Display(): (s: Summary)
      reads this, blPoint
      ensures s == SummaryOf(Value())
    {
      Summary(GetBottomLeft(), GetLength(), GetHeight(), Area(), Perimeter(), MidPoint())
    }
  }
}
