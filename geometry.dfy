/** The shape geometry of GraffleParser: the bounds rectangle unpacked into
    x, y, width and height, the vertex lists of the diamond, the three
    triangles, the adjustable arrow and the subprocess lines, the ellipse's
    centre and radii, the bezier unit-point mapping, and the path data of
    svg_addPath (the moveto, lineto and closepath commands of section 8.3 of
    SVG 1.1). Coordinates are reals standing for floats. */
module Geometry {
  import opened Base
  import opened Strings

  datatype Point = Point(x: real, y: real)

  /** A bounds rectangle: its top-left corner, its width and its height
      (y grows downwards). */
  datatype Box = Box(x: real, y: real, w: real, h: real)

  function TopLeft(b: Box): Point { Point(b.x, b.y) }
  function TopRight(b: Box): Point { Point(b.x + b.w, b.y) }
  function BottomRight(b: Box): Point { Point(b.x + b.w, b.y + b.h) }
  function BottomLeft(b: Box): Point { Point(b.x, b.y + b.h) }
  function Mid(p: Point, q: Point): Point { Point((p.x + q.x) / 2.0, (p.y + q.y) / 2.0) }
  function Centre(b: Box): Point { Mid(TopLeft(b), BottomRight(b)) }

  /** The bounds unpacked into x, y, width and height: unpacking needs
      exactly four numbers, anything else raises ValueError. */
  function Unpack(bounds: seq<real>): (r: Result<Box>)
    ensures r.Ok? <==> |bounds| == 4
    ensures r.Ok? ==> [r.value.x, r.value.y, r.value.w, r.value.h] == bounds
  {
    if |bounds| == 4 then Ok(Box(bounds[0], bounds[1], bounds[2], bounds[3])) else Err(ValueError)
  }

  /** `coords[0]` .. `coords[3]` (rect, ellipse, bezier): the first four
      numbers, extra ones ignored; fewer raise IndexError. */
  function FirstFour(bounds: seq<real>): (r: Result<Box>)
    ensures r.Ok? <==> |bounds| >= 4
    ensures r.Ok? ==> [r.value.x, r.value.y, r.value.w, r.value.h] == bounds[..4]
  {
    if |bounds| >= 4 then Ok(Box(bounds[0], bounds[1], bounds[2], bounds[3])) else Err(IndexError)
  }

  // ----- vertex lists -----

  /** svg_addDiamond: the midpoints of the four sides, clockwise from the
      top. */
  function Diamond(b: Box): (r: seq<Point>)
    ensures r == [Mid(TopLeft(b), TopRight(b)), Mid(TopRight(b), BottomRight(b)),
                  Mid(BottomRight(b), BottomLeft(b)), Mid(BottomLeft(b), TopLeft(b))]
  {
    [Point(b.x + b.w / 2.0, b.y), Point(b.x + b.w, b.y + b.h / 2.0),
     Point(b.x + b.w / 2.0, b.y + b.h), Point(b.x, b.y + b.h / 2.0)]
  }

  /** Opposite vertices of the diamond are symmetric about the centre of
      the box. */
  lemma DiamondSymmetric(b: Box)
    ensures Mid(Diamond(b)[0], Diamond(b)[2]) == Centre(b)
    ensures Mid(Diamond(b)[1], Diamond(b)[3]) == Centre(b)
  {
  }

  /** svg_addHorizontalTriangle: the left side, with the apex at the middle
      of the right side. */
  function HorizontalTriangle(b: Box): (r: seq<Point>)
    ensures r == [TopLeft(b), Mid(TopRight(b), BottomRight(b)), BottomLeft(b)]
  {
    [Point(b.x, b.y), Point(b.x + b.w, b.y + b.h / 2.0), Point(b.x, b.y + b.h)]
  }

  /** svg_addRightTriangle: top-left, bottom-right and bottom-left corners,
      the right angle at the bottom left. */
  function RightTriangle(b: Box): (r: seq<Point>)
    ensures r == [TopLeft(b), BottomRight(b), BottomLeft(b)]
  {
    [Point(b.x, b.y), Point(b.x + b.w, b.y + b.h), Point(b.x, b.y + b.h)]
  }

  /** svg_addVerticalTriangle: the top side, with the apex at the middle of
      the bottom side. */
  function VerticalTriangle(b: Box): (r: seq<Point>)
    ensures r == [TopLeft(b), TopRight(b), Mid(BottomLeft(b), BottomRight(b))]
  {
    [Point(b.x, b.y), Point(b.x + b.w, b.y), Point(b.x + b.w / 2.0, b.y + b.h)]
  }

  /** svg_addAdjustableArrow: a shaft of height h * ratio from the left side,
      and a head of length `neck` whose tip is the middle of the right side. */
  function Arrow(b: Box, ratio: real, neck: real): (r: seq<Point>)
    ensures |r| == 7
    ensures r[3] == Mid(TopRight(b), BottomRight(b))
    ensures r[0].x == r[6].x == b.x
    ensures r[1].x == r[2].x == r[4].x == r[5].x == b.x + b.w - neck
    ensures r[2].y == b.y && r[4].y == b.y + b.h
    ensures r[0].y == r[1].y && r[5].y == r[6].y && r[6].y - r[0].y == b.h * ratio
  {
    var nd := b.h * (1.0 - ratio) / 2.0;
    [Point(b.x, b.y + nd), Point(b.x + b.w - neck, b.y + nd), Point(b.x + b.w - neck, b.y),
     Point(b.x + b.w, b.y + b.h / 2.0), Point(b.x + b.w - neck, b.y + b.h),
     Point(b.x + b.w - neck, b.y + b.h - nd), Point(b.x, b.y + b.h - nd)]
  }

  /** The arrow is its own mirror image in the horizontal centre line:
      vertex i and vertex 6 - i share their x, and their y values sum to
      2y + h. */
  lemma ArrowMirror(b: Box, ratio: real, neck: real, i: nat)
    requires i < 7
    ensures Arrow(b, ratio, neck)[i].x == Arrow(b, ratio, neck)[6 - i].x
    ensures Arrow(b, ratio, neck)[i].y + Arrow(b, ratio, neck)[6 - i].y == 2.0 * b.y + b.h
  {
  }

  /** svg_addSubprocess: the two vertical lines, a tenth of the width in
      from the left and from the right side. */
  function SubprocessLines(b: Box): (r: (seq<Point>, seq<Point>))
    ensures |r.0| == 2 && |r.1| == 2
    ensures r.0[0].x == r.0[1].x == b.x + b.w / 10.0
    ensures r.1[0].x == r.1[1].x == b.x + b.w - b.w / 10.0
    ensures r.0[0].y == r.1[0].y == b.y && r.0[1].y == r.1[1].y == b.y + b.h
  {
    var off := b.w * 0.1;
    ([Point(b.x + off, b.y), Point(b.x + off, b.y + b.h)],
     [Point(b.x + b.w - off, b.y), Point(b.x + b.w - off, b.y + b.h)])
  }

  /** The two subprocess lines are mirror images about the vertical centre
      line of the box. */
  lemma SubprocessSymmetric(b: Box)
    ensures SubprocessLines(b).0[0].x + SubprocessLines(b).1[0].x == 2.0 * Centre(b).x
  {
  }

  /** svg_addEllipse: centre (x + w/2, y + h/2) and radii w/2 and h/2. */
  function Ellipse(b: Box): (r: (Point, real, real))
    ensures r.0 == Centre(b)
    ensures r.0.x - r.1 == b.x && r.0.x + r.1 == b.x + b.w
    ensures r.0.y - r.2 == b.y && r.0.y + r.2 == b.y + b.h
  {
    (Point(b.x + b.w / 2.0, b.y + b.h / 2.0), b.w / 2.0, b.h / 2.0)
  }

  /** svg_addBezier: a unit point, relative to the centre and scaled by the
      half-width and half-height of the box. */
  function FromUnit(b: Box, u: Point): (p: Point)
    ensures u == Point(-1.0, -1.0) ==> p == TopLeft(b)
    ensures u == Point(1.0, 1.0) ==> p == BottomRight(b)
    ensures u == Point(0.0, 0.0) ==> p == Centre(b)
  {
    Point(b.x + b.w / 2.0 + u.x * (b.w / 2.0), b.y + b.h / 2.0 + u.y * (b.h / 2.0))
  }

  /** The unit point a point of a box with non-zero sides comes from. */
  function ToUnit(b: Box, p: Point): Point
    requires b.w != 0.0 && b.h != 0.0
  {
    Point((p.x - b.x - b.w / 2.0) / (b.w / 2.0), (p.y - b.y - b.h / 2.0) / (b.h / 2.0))
  }

  /** The bezier mapping loses nothing when the box has non-zero sides. */
  lemma UnitRoundTrip(b: Box, u: Point)
    requires b.w != 0.0 && b.h != 0.0
    ensures ToUnit(b, FromUnit(b, u)) == u
  {
    var p := FromUnit(b, u);
    assert p.x - b.x - b.w / 2.0 == u.x * (b.w / 2.0);
    assert p.y - b.y - b.h / 2.0 == u.y * (b.h / 2.0);
  }

  /** The bezier points of a box, each mapped from its unit point. */
  function FromUnits(b: Box, us: seq<Point>): (r: seq<Point>)
    ensures |r| == |us| && forall i :: 0 <= i < |us| ==> r[i] == FromUnit(b, us[i])
  {
    if us == [] then [] else [FromUnit(b, us[0])] + FromUnits(b, us[1..])
  }

  // ----- path data -----

  /** A point as the list of its two coordinates. */
  function AsList(p: Point): seq<real> { [p.x, p.y] }

  function AsLists(pts: seq<Point>): (r: seq<seq<real>>)
    ensures |r| == |pts| && forall i :: 0 <= i < |pts| ==> r[i] == AsList(pts[i])
  {
    if pts == [] then [] else [AsList(pts[0])] + AsLists(pts[1..])
  }

  /** str() of every number, with str() of a float given as `show`. */
  function Shows(show: real -> string, a: seq<real>): (r: seq<string>)
    ensures |r| == |a| && forall i :: 0 <= i < |a| ==> r[i] == show(a[i])
  {
    if a == [] then [] else [show(a[0])] + Shows(show, a[1..])
  }

  /** The text of one point: str() of each coordinate, joined by commas. */
  function CoordsText(show: real -> string, a: seq<real>): string
  {
    Join(Shows(show, a), ",")
  }

  /** A point of the plane is written "x,y". */
  lemma PointText(show: real -> string, p: Point)
    ensures CoordsText(show, AsList(p)) == show(p.x) + "," + show(p.y)
  {
    var parts := Shows(show, [p.x, p.y]);
    assert parts == [show(p.x), show(p.y)];
    assert parts[1..] == [show(p.y)];
    assert Join(parts, ",") == show(p.x) + "," + Join(parts[1..], ",");
  }

  function CoordsTexts(show: real -> string, pts: seq<seq<real>>): (r: seq<string>)
    ensures |r| == |pts| && forall i :: 0 <= i < |pts| ==> r[i] == CoordsText(show, pts[i])
  {
    if pts == [] then [] else [CoordsText(show, pts[0])] + CoordsTexts(show, pts[1..])
  }

  /** A lineto command for every point text. */
  function LineTos(ts: seq<string>): (r: seq<string>)
    ensures |r| == |ts| && forall i :: 0 <= i < |ts| ==> r[i] == " L " + ts[i]
  {
    if ts == [] then [] else [" L " + ts[0]] + LineTos(ts[1..])
  }

  /** The line_string of svg_addPath and svg_addBezier: "M " and the first
      point, then the " L " segments joined with " ", then " z" when the
      path is closed. No point at all raises IndexError. */
  function PathData(ts: seq<string>, close: bool): (r: Result<string>)
    ensures r.Ok? <==> ts != []
  {
    if ts == [] then Err(IndexError)
    else Ok("M " + ts[0] + Join(LineTos(ts[1..]), " ") + (if close then " z" else ""))
  }

  /** The path starts by moving to the first point. */
  lemma PathStartsWithMove(ts: seq<string>, close: bool)
    requires ts != []
    ensures var d := PathData(ts, close).value;
      |d| >= 2 + |ts[0]| && d[..2 + |ts[0]|] == "M " + ts[0]
  {
    var d := PathData(ts, close).value;
    var head := "M " + ts[0];
    assert d == head + (Join(LineTos(ts[1..]), " ") + (if close then " z" else ""));
    assert d[..|head|] == head;
  }

  /** Point text never holds 'z': str() of a float writes digits, a sign, a
      point, an exponent or "inf"/"nan", none of them a 'z'. */
  predicate NoZ(ts: seq<string>)
  {
    forall i :: 0 <= i < |ts| ==> 'z' !in ts[i]
  }

  lemma {:induction false} JoinNoZ(parts: seq<string>, sep: string)
    requires NoZ(parts) && 'z' !in sep
    ensures 'z' !in Join(parts, sep)
  {
    if |parts| > 1 {
      JoinNoZ(parts[1..], sep);
    }
  }

  /** When str() of a float never writes a 'z', neither does the text of
      any point. */
  lemma CoordsTextsNoZ(show: real -> string, pts: seq<seq<real>>)
    requires forall x :: 'z' !in show(x)
    ensures NoZ(CoordsTexts(show, pts))
  {
    forall i | 0 <= i < |pts|
      ensures 'z' !in CoordsTexts(show, pts)[i]
    {
      var parts := Shows(show, pts[i]);
      forall j | 0 <= j < |parts|
        ensures 'z' !in parts[j]
      {
        assert parts[j] == show(pts[i][j]);
        var x := pts[i][j];
        assert 'z' !in show(x);
      }
      JoinNoZ(parts, ",");
    }
  }

  lemma LineTosNoZ(ts: seq<string>)
    requires NoZ(ts)
    ensures NoZ(LineTos(ts))
  {
    forall i | 0 <= i < |ts|
      ensures 'z' !in LineTos(ts)[i]
    {
      assert LineTos(ts)[i] == " L " + ts[i];
    }
  }

  /** The path ends with the closepath command " z" if and only if it was
      asked to close. */
  lemma PathClosesIff(ts: seq<string>, close: bool)
    requires ts != [] && NoZ(ts)
    ensures var d := PathData(ts, close).value;
      (|d| >= 2 && d[|d| - 2..] == " z") <==> close
  {
    var d := PathData(ts, close).value;
    var body := "M " + ts[0] + Join(LineTos(ts[1..]), " ");
    if close {
      assert d == body + " z";
      assert d[|d| - 2..] == " z";
    } else {
      LineTosNoZ(ts[1..]);
      JoinNoZ(LineTos(ts[1..]), " ");
      assert 'z' !in ts[0];
      assert d == ("M " + ts[0]) + Join(LineTos(ts[1..]), " ");
      assert 'z' !in d;
      if |d| >= 2 {
        assert d[|d| - 2..][1] == d[|d| - 1];
      }
    }
  }

  /** Point text never holds 'L' (see NoZ). */
  predicate NoL(ts: seq<string>)
  {
    forall i :: 0 <= i < |ts| ==> 'L' !in ts[i]
  }

  /** Joined " L " segments over texts without 'L' hold exactly one 'L'
      per segment. */
  lemma {:induction false} JoinLineTosCount(ts: seq<string>)
    requires NoL(ts)
    ensures Count(Join(LineTos(ts), " "), 'L') == |ts|
  {
    var ls := LineTos(ts);
    if ts == [] {
    } else {
      assert ls[0] == " L " + ts[0];
      CountAbsent(ts[0], 'L');
      CountAppend(" L ", ts[0], 'L');
      if |ts| == 1 {
        assert Join(ls, " ") == ls[0];
      } else {
        assert LineTos(ts[1..]) == ls[1..];
        JoinLineTosCount(ts[1..]);
        assert Join(ls, " ") == ls[0] + " " + Join(ls[1..], " ");
        CountAppend(ls[0], " ", 'L');
        CountAppend(ls[0] + " ", Join(ls[1..], " "), 'L');
      }
    }
  }

  /** A path through n points draws exactly n - 1 line segments: its data
      holds n - 1 lineto commands. */
  lemma PathLineCount(ts: seq<string>, close: bool)
    requires ts != [] && NoL(ts)
    ensures Count(PathData(ts, close).value, 'L') == |ts| - 1
  {
    var j := Join(LineTos(ts[1..]), " ");
    var tail := if close then " z" else "";
    assert NoL(ts[1..]);
    JoinLineTosCount(ts[1..]);
    CountAbsent(ts[0], 'L');
    CountAppend("M ", ts[0], 'L');
    CountAppend("M " + ts[0], j, 'L');
    CountAppend("M " + ts[0] + j, tail, 'L');
    assert Count("M ", 'L') == 0;
    assert Count(tail, 'L') == 0 by {
      if close {
        assert Count(" z", 'L') == 0;
      }
    }
  }

  /** The segments follow the points in order: one more point appends one
      more " L " segment to an open path. */
  lemma PathAppend(ts: seq<string>, t: string)
    requires ts != []
    ensures PathData(ts + [t], false).value ==
      PathData(ts, false).value + (if |ts| == 1 then "" else " ") + " L " + t
  {
    var rest := ts[1..];
    assert (ts + [t])[0] == ts[0];
    assert (ts + [t])[1..] == rest + [t];
    JoinSnoc(LineTos(rest), " L " + t, " ");
    assert LineTos(rest + [t]) == LineTos(rest) + [" L " + t];
  }

  lemma {:induction false} JoinSnoc(parts: seq<string>, p: string, sep: string)
    ensures Join(parts + [p], sep) == if parts == [] then p else Join(parts, sep) + sep + p
  {
    if |parts| == 1 {
      assert parts + [p] == [parts[0], p];
    } else if |parts| > 1 {
      assert (parts + [p])[1..] == parts[1..] + [p];
      JoinSnoc(parts[1..], p, sep);
    } else {
      assert parts + [p] == [p];
    }
  }
}
