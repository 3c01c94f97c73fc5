/**
 * The decision logic of the program's driver, without its console I/O: the
 * check `read_rectangle_name` makes of a line of input against the list
 * entered so far, `add_rectangle`, and what `print_rectangles` reports for
 * each rectangle of the list.
 */
module Driver {
  import opened Geometry
  import opened Shapes

  /** The input that ends the entry of rectangles. */
  const StopWord: string := "stop"

  /** The keyword and single space that start the entry of a name. */
  const RecPrefix: string := "rec "

  /** The outcome of checking one line of input: `Accepted` is the `true`
      return; the two others are the `false` return after printing the
      duplicate-name or the invalid-syntax message. */
  datatype NameVerdict = Accepted | DuplicateName | InvalidSyntax

  /** `std::string::substr(pos, count)`: at most `count` characters from
      position `pos`, fewer when the string ends first. */
  function Substr(s: string, pos: nat, count: nat): (t: string)
    requires pos <= |s|
    ensures |t| == if count < |s| - pos then count else |s| - pos
    ensures t <= s[pos..]
  {
    s[pos..if count < |s| - pos then pos + count else |s|]
  }

  /** The test `input.substr(0, 4) == "rec "`. */
  predicate HasRecPrefix(input: string)
  {
    Substr(input, 0, |RecPrefix|) == RecPrefix
  }

  /** The prefix test holds exactly of the inputs that are at least four
      characters long and start with "rec "; a shorter input never passes. */
  lemma HasRecPrefixIff(input: string)
    ensures HasRecPrefix(input) <==> |input| >= |RecPrefix| && input[..|RecPrefix|] == RecPrefix
  {
  }

  /** Some rectangle of the list already carries `name`. */
  predicate NameInUse(name: string, rectangles: seq<RectangleValue>)
  {
    exists i | 0 <= i < |rectangles| :: rectangles[i].name == name
  }

  /** `read_rectangle_name` without the prompt and the `getline`: "stop" is
      accepted; an input starting with "rec " is accepted when the rest of it
      is no rectangle's name and refused as a duplicate when it is one; every
      other input is refused as invalid syntax. */
  method ReadRectangleName(input: string, rectangles: seq<RectangleValue>) returns (verdict: NameVerdict)
    ensures input == StopWord ==> verdict == Accepted
    ensures input != StopWord && HasRecPrefix(input) ==>
      |input| >= |RecPrefix| &&
      verdict == (if NameInUse(input[|RecPrefix|..], rectangles) then DuplicateName else Accepted)
    ensures input != StopWord && !HasRecPrefix(input) ==> verdict == InvalidSyntax
  {
    if input == StopWord {
      return Accepted;
    } else if Substr(input, 0, 4) == RecPrefix {
      for i := 0 to |rectangles|
        invariant forall k | 0 <= k < i :: rectangles[k].name != input[4..]
      {
        if Substr(input, 4, |input|) == rectangles[i].name {
          return DuplicateName;
        }
      }
      return Accepted;
    } else {
      return InvalidSyntax;
    }
  }

  /** What the driver keeps true of its list: every name occurs once and
      every rectangle has positive length and height. */
  ghost predicate Consistent(rectangles: seq<RectangleValue>)
  {
    && (forall i, j | 0 <= i < j < |rectangles| :: rectangles[i].name != rectangles[j].name)
    && (forall i | 0 <= i < |rectangles| :: Positive(rectangles[i]))
  }

  /** Appending a rectangle whose name the validator accepted and whose
      dimensions `read_dimensions` let through keeps the list consistent. */
  lemma AppendAcceptedKeepsConsistent(rectangles: seq<RectangleValue>, r: RectangleValue)
    requires Consistent(rectangles)
    requires !NameInUse(r.name, rectangles)
    requires Positive(r)
    ensures Consistent(rectangles + [r])
  {
  }

  /** The `vector<Rectangle>` the driver fills: it holds copies of the
      rectangles, in the order they were added. */
  class RectangleList {
    var items: seq<RectangleValue>

    constructor ()
      ensures items == []
    {
      items := [];
    }
  }

  /** `add_rectangle`: builds a rectangle from the given fields with the
      setters and appends a copy of it to the end of the list. */
  method AddRectangle(name: string, x: real, y: real, length: real, height: real, rectangles: RectangleList)
    modifies rectangles
    ensures rectangles.items == old(rectangles.items) + [RectangleValue(name, PointValue(x, y), length, height)]
  {
    var rec := new Rectangle();
    rec.SetName(name);
    rec.SetBottomLeft(x, y);
    rec.SetDimensions(length, height);
    rectangles.items := rectangles.items + [rec.Value()];
  }

  /** One rectangle's part of the report: its name, then what `display` shows
      before and after scaling. */
  datatype ReportEntry = ReportEntry(name: string, before: Summary, after: Summary)

  /** The entry the report holds for `r`: its name, the stored values shown
      before scaling, and the scaled copy's corner moved by the old extents. */
  function EntryFor(r: RectangleValue): (e: ReportEntry)
    ensures e.name == r.name
    ensures e.before.location == r.bottomLeft && e.before.length == r.length && e.before.height == r.height
    ensures e.after.location == PointValue(r.bottomLeft.x - r.length, r.bottomLeft.y - r.height)
  {
    ReportEntry(r.name, SummaryOf(r), SummaryOf(ScaledBy3(r)))
  }

  /** In each entry the scaled rectangle keeps its midpoint and has three
      times the length and height, nine times the area and three times the
      perimeter of the original. */
  lemma EntryForScaling(r: RectangleValue)
    ensures EntryFor(r).after.midPoint == EntryFor(r).before.midPoint
    ensures EntryFor(r).after.length == 3.0 * EntryFor(r).before.length
    ensures EntryFor(r).after.height == 3.0 * EntryFor(r).before.height
    ensures EntryFor(r).after.area == 9.0 * EntryFor(r).before.area
    ensures EntryFor(r).after.perimeter == 3.0 * EntryFor(r).before.perimeter
  {
  }

  /** `print_rectangles` without the formatting: for each rectangle of the
      list, in order, a copy is displayed, scaled by 3 and displayed again.
      The list itself is taken by value and is not changed. */
  method ReportRectangles(rectangles: seq<RectangleValue>) returns (report: seq<ReportEntry>)
    ensures |report| == |rectangles|
    ensures forall i | 0 <= i < |rectangles| :: report[i] == EntryFor(rectangles[i])
  {
    report := [];
    for i := 0 to |rectangles|
      invariant |report| == i
      invariant forall k | 0 <= k < i :: report[k] == EntryFor(rectangles[k])
    {
      var rec := new Rectangle.Copy(rectangles[i]);
      var name := rec.GetName();
      var before := rec.Display();
      rec.ScaleBy3();
      var after := rec.Display();
      report := report + [ReportEntry(name, before, after)];
    }
  }

  /** A session of the driver: "A" is entered, then "A" again is refused as a
      duplicate, "B" is entered and "stop" ends the entry. The list then holds
      "A" before "B", its names are unique and its extents positive, and the
      report lists "A" before "B". */
  method DuplicateNameSession() returns (first: NameVerdict, second: NameVerdict, third: NameVerdict,
                                         last: NameVerdict, entered: seq<RectangleValue>, report: seq<ReportEntry>)
    ensures first == Accepted && second == DuplicateName && third == Accepted && last == Accepted
    ensures |entered| == 2 && entered[0].name == "A" && entered[1].name == "B"
    ensures Consistent(entered)
    ensures |report| == 2 && report[0].name == "A" && report[1].name == "B"
  {
    var list := new RectangleList();
    HasRecPrefixIff("rec A");
    HasRecPrefixIff("rec B");
    assert "rec A"[|RecPrefix|..] == "A" && "rec B"[|RecPrefix|..] == "B";
    first := ReadRectangleName("rec A", list.items);
    assert first == Accepted;
    AppendAcceptedKeepsConsistent(list.items, RectangleValue("A", PointValue(0.0, 0.0), 2.0, 4.0));
    AddRectangle("A", 0.0, 0.0, 2.0, 4.0, list);
    second := ReadRectangleName("rec A", list.items);
    assert NameInUse("A", list.items) by {
      assert list.items[0].name == "A";
    }
    third := ReadRectangleName("rec B", list.items);
    assert !NameInUse("B", list.items) by {
      assert |list.items| == 1 && list.items[0].name == "A" != "B";
    }
    assert third == Accepted;
    AppendAcceptedKeepsConsistent(list.items, RectangleValue("B", PointValue(5.0, 5.0), 1.0, 1.0));
    AddRectangle("B", 5.0, 5.0, 1.0, 1.0, list);
    last := ReadRectangleName("stop", list.items);
    entered := list.items;
    report := ReportRectangles(list.items);
  }
}
