/**
 * The value view of the rectangle program's geometry: the numbers a `Point`
 * and a `Rectangle` hold, and what the member functions of those classes
 * compute from them.
 *
 * The C++ fields are `double`; here they are exact `real`s, so the facts below
 * (the midpoint being kept by scaling, for one) hold exactly rather than up to
 * rounding.
 */
module Geometry {

  /** The coordinates held by a `Point`. */
  datatype PointValue = PointValue(x: real, y: real)

  /** The state of a `Rectangle`: its name, its bottom-left corner, its
      length (along the x-axis) and its height (along the y-axis). */
  datatype RectangleValue = RectangleValue(name: string, bottomLeft: PointValue, length: real, height: real)

  /** What `Rectangle::display` reports about a rectangle. */
  datatype Summary = Summary(location: PointValue, length: real, height: real,
                             area: real, perimeter: real, midPoint: PointValue)

  /** A default-constructed `Point`. */
  const Origin: PointValue := PointValue(0.0, 0.0)

  /** The name a default-constructed `Rectangle` carries. */
  const DefaultName: string := "NoName"

  /** A default-constructed `Rectangle`. */
  const DefaultRectangle: RectangleValue := RectangleValue(DefaultName, Origin, 0.0, 0.0)

  // The four sides of the axis-aligned rectangle, read off its corner and extents.

  function Left(r: RectangleValue): real { r.bottomLeft.x }
  function Right(r: RectangleValue): real { r.bottomLeft.x + r.length }
  function Bottom(r: RectangleValue): real { r.bottomLeft.y }
  function Top(r: RectangleValue): real { r.bottomLeft.y + r.height }

  function TopRight(r: RectangleValue): PointValue { PointValue(Right(r), Top(r)) }

  /** The region the rectangle covers, its boundary included. */
  predicate Contains(r: RectangleValue, p: PointValue)
  {
    Left(r) <= p.x <= Right(r) && Bottom(r) <= p.y <= Top(r)
  }

  /** The shape of a fully entered rectangle: both extents strictly positive. */
  predicate Positive(r: RectangleValue)
  {
    r.length > 0.0 && r.height > 0.0
  }

  /** The image of `p` under the scaling by factor `k` centred on `c`. */
  function ScaleAbout(p: PointValue, c: PointValue, k: real): PointValue
  {
    PointValue(c.x + k * (p.x - c.x), c.y + k * (p.y - c.y))
  }

  /** `Rectangle::area`: length times height. */
  function Area(r: RectangleValue): (a: real)
    ensures a == (Right(r) - Left(r)) * (Top(r) - Bottom(r))
    ensures Positive(r) ==> a > 0.0
  {
    r.length * r.height
  }

  /** `Rectangle::perimeter`: twice the length plus twice the height. */
  function Perimeter(r: RectangleValue): (p: real)
    ensures p == (Right(r) - Left(r)) + (Top(r) - Bottom(r)) + (Right(r) - Left(r)) + (Top(r) - Bottom(r))
    ensures Positive(r) ==> p > 0.0
  {
    2.0 * r.length + 2.0 * r.height
  }

  /** `Rectangle::midPoint`: the point half the length right of and half the
      height above the bottom-left corner, that is, the point as far from the
      left side as from the right side and as far from the bottom as from the
      top (the centre). */
  function MidPoint(r: RectangleValue): (m: PointValue)
    ensures m.x - Left(r) == Right(r) - m.x
    ensures m.y - Bottom(r) == Top(r) - m.y
    ensures Positive(r) ==> Contains(r, m)
  {
    PointValue(r.bottomLeft.x + r.length / 2.0, r.bottomLeft.y + r.height / 2.0)
  }

  /** `Rectangle::scaleBy3`: the corner moves left by the old length and down
      by the old height, then both extents triple. The result is the same
      rectangle scaled by 3 about its midpoint: same name, same midpoint,
      three times the extents. */
  function ScaledBy3(r: RectangleValue): (s: RectangleValue)
    ensures s.name == r.name
    ensures s.length == 3.0 * r.length && s.height == 3.0 * r.height
    ensures MidPoint(s) == MidPoint(r)
  {
    var shifted := PointValue(r.bottomLeft.x - r.length, r.bottomLeft.y - r.height);
    RectangleValue(r.name, shifted, r.length * 3.0, r.height * 3.0)
  }

  /** What `Rectangle::display` shows, in the order it shows it: the stored
      corner and extents, and the area, perimeter and midpoint that agree
      with them. */
  function SummaryOf(r: RectangleValue): (s: Summary)
    ensures s.location == r.bottomLeft && s.length == r.length && s.height == r.height
    ensures s.area == s.length * s.height
    ensures s.perimeter == 2.0 * s.length + 2.0 * s.height
    ensures s.midPoint == PointValue(s.location.x + s.length / 2.0, s.location.y + s.height / 2.0)
  {
    Summary(r.bottomLeft, r.length, r.height, Area(r), Perimeter(r), MidPoint(r))
  }

  /** The scaled rectangle is the image of the original under the scaling by 3
      about the midpoint: both corners map, and a point lies in the original
      exactly when its image lies in the scaled rectangle. */
  lemma ScaledBy3IsScalingAboutMidPoint(r: RectangleValue)
    ensures ScaledBy3(r).bottomLeft == ScaleAbout(r.bottomLeft, MidPoint(r), 3.0)
    ensures TopRight(ScaledBy3(r)) == ScaleAbout(TopRight(r), MidPoint(r), 3.0)
    ensures forall p :: Contains(r, p) <==> Contains(ScaledBy3(r), ScaleAbout(p, MidPoint(r), 3.0))
  {
  }

  /** Scaling keeps a fully entered rectangle fully entered, and the scaled
      rectangle covers the original one. */
  lemma ScaledBy3CoversOriginal(r: RectangleValue)
    requires Positive(r)
    ensures Positive(ScaledBy3(r))
    ensures forall p :: Contains(r, p) ==> Contains(ScaledBy3(r), p)
  {
  }

  /** Scaling by 3 multiplies the area by 9 and the perimeter by 3. */
  lemma ScaledBy3AreaAndPerimeter(r: RectangleValue)
    ensures Area(ScaledBy3(r)) == 9.0 * Area(r)
    ensures Perimeter(ScaledBy3(r)) == 3.0 * Perimeter(r)
  {
  }

  /** Scaling is not idempotent: scaling twice multiplies the extents by 9,
      so a rectangle with a non-zero extent is changed by the second scaling. */
  lemma ScaledBy3Twice(r: RectangleValue)
    ensures ScaledBy3(ScaledBy3(r)).length == 9.0 * r.length
    ensures ScaledBy3(ScaledBy3(r)).height == 9.0 * r.height
    ensures MidPoint(ScaledBy3(ScaledBy3(r))) == MidPoint(r)
    ensures (r.length != 0.0 || r.height != 0.0) ==> ScaledBy3(ScaledBy3(r)) != ScaledBy3(r)
  {
  }

  /** The two worked examples: a 2 by 4 rectangle at the origin and a unit
      square at (5, 5), before and after scaling. */
  lemma ScaledBy3Examples()
    ensures var r := RectangleValue("A", Origin, 2.0, 4.0);
      && Area(r) == 8.0 && Perimeter(r) == 12.0 && MidPoint(r) == PointValue(1.0, 2.0)
      && ScaledBy3(r) == RectangleValue("A", PointValue(-2.0, -4.0), 6.0, 12.0)
      && MidPoint(ScaledBy3(r)) == PointValue(1.0, 2.0)
      && Area(ScaledBy3(r)) == 72.0 && Perimeter(ScaledBy3(r)) == 36.0
    ensures var r := RectangleValue("B", PointValue(5.0, 5.0), 1.0, 1.0);
      && MidPoint(r) == PointValue(5.5, 5.5)
      && ScaledBy3(r) == RectangleValue("B", PointValue(4.0, 4.0), 3.0, 3.0)
      && MidPoint(ScaledBy3(r)) == PointValue(5.5, 5.5)
  {
  }
}
