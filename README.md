# Rectangles: a verified model of the geometry and the input checks

The program reads a list of named, axis-aligned rectangles from the user. Each
rectangle is given by its bottom-left corner, its length (along the x-axis) and
its height (along the y-axis). For every rectangle it then reports the area,
the perimeter and the midpoint, before and after scaling the rectangle by 3
about its midpoint.

This project models, in Dafny:

- `geometry.dfy`, module `Geometry`. The values a `Point` and a `Rectangle`
  hold (`PointValue`, `RectangleValue`). What the const member functions compute
  from them (`Area`, `Perimeter`, `MidPoint`, `ScaledBy3`, `SummaryOf`). The
  geometric definitions these are proved against: the four sides, the region a
  rectangle covers, and scaling about a centre.
- `shapes.dfy`, module `Shapes`. The classes `Point` and `Rectangle`. Their
  fields change in place through the setters and `ScaleBy3`, as in the C++.
  The rectangle owns its corner `Point`, which is allocated with it and never
  shared; this is the C++ by-value member. Each object's state is read back
  through `Value()`, and every member is specified against that value.
- `driver.dfy`, module `Driver`. The decision made by `read_rectangle_name`,
  without the prompt and the `getline`. `add_rectangle` appending to the list
  (`RectangleList`, the `vector<Rectangle>`). What `print_rectangles` reports
  for each rectangle, without the formatting. The list keeps copies of
  rectangles, so its elements are values.

C++ `double` is abstracted to Dafny's exact `real`. IEEE rounding, NaN,
infinities and overflow are not modelled. Over the reals, the midpoint kept by
`scaleBy3` is an exact equality.

A name is meant to follow "rec " and the single space. The check at
rectangles.cpp:209-217 does not require it to be non-empty. It accepts the
input `"rec "`, with an empty name, when no rectangle has the empty name yet.
`ReadRectangleName` follows the code and accepts it too.

## Model

| member | source | states |
|---|---|---|
| Shapes.Point.constructor | rectangles.cpp:48-51 | a new point is at (0, 0) |
| Shapes.Point.SetX | rectangles.cpp:310-312 | afterwards `GetX` returns the given value and `GetY` is unchanged |
| Shapes.Point.SetY | rectangles.cpp:319-321 | afterwards `GetY` returns the given value and `GetX` is unchanged |
| Shapes.Point.GetX | rectangles.cpp:328-330 | returns the x-coordinate of the point's value, changing nothing |
| Shapes.Point.GetY | rectangles.cpp:337-339 | returns the y-coordinate of the point's value, changing nothing |
| Shapes.Rectangle.constructor | rectangles.cpp:87-92 | a new rectangle is named "NoName", has its corner at (0, 0), length 0 and height 0, and owns a freshly allocated corner |
| Shapes.Rectangle.Copy | rectangles.cpp:285 | the copy holds exactly the values of the listed rectangle, in a corner of its own |
| Shapes.Rectangle.SetName | rectangles.cpp:346-348 | only the name changes, to the given one |
| Shapes.Rectangle.SetBottomLeft | rectangles.cpp:356-359 | only the corner changes, to (x, y) |
| Shapes.Rectangle.SetDimensions | rectangles.cpp:367-370 | only length and height change, to the given values, with no check on them |
| Shapes.Rectangle.GetName | rectangles.cpp:377-379 | returns the name of the rectangle's value, changing nothing |
| Shapes.Rectangle.GetBottomLeft | rectangles.cpp:386-388 | returns a copy of the corner, as a value, changing nothing |
| Shapes.Rectangle.GetLength | rectangles.cpp:395-397 | returns the length of the rectangle's value, changing nothing |
| Shapes.Rectangle.GetHeight | rectangles.cpp:404-406 | returns the height of the rectangle's value, changing nothing |
| Shapes.Rectangle.Area | rectangles.cpp:413-415 | reads the rectangle without changing it and returns the area of its value |
| Shapes.Rectangle.Perimeter | rectangles.cpp:422-424 | reads the rectangle without changing it and returns the perimeter of its value |
| Shapes.Rectangle.MidPoint | rectangles.cpp:431-436 | reads the rectangle without changing it and returns the midpoint of its value |
| Shapes.Rectangle.ScaleBy3 | rectangles.cpp:442-450 | the new state is `ScaledBy3` of the old one: corner shifted by the old length and height, extents tripled, name kept; the midpoint is the same before and after |
| Shapes.Rectangle.Display | rectangles.cpp:456-464 | reads the rectangle without changing it and yields its location, length, height, area, perimeter and midpoint |
| Geometry.Area | rectangles.cpp:413-415 | the area is the width between left and right sides times the height between bottom and top, and is positive for a rectangle with positive extents |
| Geometry.Perimeter | rectangles.cpp:422-424 | the perimeter is the sum of the four side lengths, and is positive for a rectangle with positive extents |
| Geometry.MidPoint | rectangles.cpp:431-436 | the midpoint is as far from the left side as from the right side, and as far from the bottom as from the top; it lies inside a rectangle with positive extents |
| Geometry.ScaledBy3 | rectangles.cpp:438-450 | scaling keeps the name and the midpoint and triples length and height |
| Geometry.SummaryOf | rectangles.cpp:456-464 | the summary shows the stored corner, length and height, and an area, perimeter and midpoint consistent with them |
| Geometry.ScaledBy3IsScalingAboutMidPoint | rectangles.cpp:438-450 | the scaled rectangle is the image of the original under the scaling by 3 centred on the midpoint: both corners map, and a point is in the original exactly when its image is in the scaled rectangle |
| Geometry.ScaledBy3CoversOriginal | rectangles.cpp:442-450 | a rectangle with positive extents keeps them positive after scaling, and the scaled rectangle covers it |
| Geometry.ScaledBy3AreaAndPerimeter | rectangles.cpp:442-450 | scaling multiplies the area by 9 and the perimeter by 3 |
| Geometry.ScaledBy3Twice | rectangles.cpp:442-450 | scaling twice multiplies the extents by 9 and keeps the midpoint; it is not idempotent unless both extents are zero |
| Geometry.ScaledBy3Examples | rectangles.cpp:413-450 | a 2 by 4 rectangle at the origin has area 8, perimeter 12 and midpoint (1, 2), and scales to corner (-2, -4), 6 by 12, with the same midpoint, area 72 and perimeter 36; a unit square at (5, 5) scales to corner (4, 4), 3 by 3, keeping midpoint (5.5, 5.5) |
| Driver.Substr | rectangles.cpp:209 | `substr` yields a prefix of the rest of the string from the given position: `count` characters, or fewer if the string ends first |
| Driver.HasRecPrefixIff | rectangles.cpp:209 | the prefix test passes exactly for inputs of at least four characters that start with "rec " |
| Driver.ReadRectangleName | rectangles.cpp:201-222 | "stop" is accepted, and is checked first; an input starting with "rec " is accepted exactly when the rest of it is no listed rectangle's name, and is otherwise refused as a duplicate; any other input is refused as invalid syntax |
| Driver.AppendAcceptedKeepsConsistent | rectangles.cpp:114-161 | appending a rectangle whose name is in no listed rectangle and whose extents are positive keeps every name unique and every rectangle's extents positive |
| Driver.AddRectangle | rectangles.cpp:260-270 | the list afterwards is the old list with one rectangle appended, carrying the given name, corner, length and height; earlier elements and their order are unchanged |
| Driver.RectangleList.constructor | rectangles.cpp:113 | the list starts empty |
| Driver.EntryForScaling | rectangles.cpp:285-295 | in each report entry the scaled rectangle keeps the midpoint, has three times the extents and perimeter, and has nine times the area |
| Driver.EntryFor | rectangles.cpp:285-295 | an entry carries the rectangle's name, the stored values as shown before scaling, and the scaled copy with its corner moved left and down by the old length and height |
| Driver.ReportRectangles | rectangles.cpp:277-301 | the report has one entry per rectangle, in list order; each entry is the name and the summary of the rectangle before and after scaling a copy; the list is taken by value and left unchanged |
| Driver.DuplicateNameSession | rectangles.cpp:114-167 | entering "A", "A" again, "B", then "stop" gives the verdicts accepted, duplicate, accepted, accepted; the list then holds "A" before "B" with unique names and positive extents, and the report lists "A" before "B" |

## Left out

- Console I/O: the welcome banner, prompts, `getline`, `cin >>`, `cin.ignore`
  and every `cout` message. The line the user typed is a parameter of
  `ReadRectangleName`. Which error message is printed is its verdict.
- `main`'s prompt-and-read loop (rectangles.cpp:102-173). It is
  input-driven. `DuplicateNameSession` walks one fixed session through the
  same calls, and `AppendAcceptedKeepsConsistent` states what the loop keeps
  true of the list.
- `read_coordinates` and the re-prompt loop of `read_dimensions`
  (rectangles.cpp:231-248). They are input-driven. What `read_dimensions`
  guarantees (positive length and height) is the `Positive` premise of
  `AppendAcceptedKeepsConsistent`. `AddRectangle` does not require it, because
  `add_rectangle` does not check it.
- The text formatting of `display` and `print_rectangles`, including the
  rectangle count and the blank lines between entries. `Display` and
  `ReportRectangles` return the reported values instead.
- C++ `std::string` holds bytes, while a Dafny `string` is a sequence of
  characters. The checks compare the ASCII words "stop" and "rec " and test
  names for exact equality, so the two agree on text whose bytes are
  characters one for one. Multi-byte encodings are not modelled.
- IEEE-754 `double` behaviour (rounding, NaN, infinities, overflow). All
  coordinates and extents are exact reals.
