/** The graphics walk of GraffleParser as a function of the parser's state:
    svgItterateGraffleGraphics, svgAddGraffleShapedGraphic, the svg_add*
    emitters, extractPage and walkGraffleDoc. The output tree is a sequence
    of element records per container; the DOM calls that build it, the RTF
    reader, the file-information reader, the float formatting and the
    flip/rotate helpers are collaborators held in an Env. */
module Render {
  import opened Base
  import opened Strings
  import opened Plist
  import opened Coords
  import opened Geometry
  import opened Styles

  /** One line of text as extractRTFString yields it: span["string"] and
      span["style"]. */
  datatype Span = Span(text: string, style: Option<string>)

  /** What fileinfo.FileInfo reads from the document: the format version
      and the print information of version 5 documents. */
  datatype PrintInfo = PrintInfo(paperWidth: real, paperHeight: real,
                                 left: real, right: real, top: real, bottom: real)
  datatype FileInfo = FileInfo(version: real, printInfo: PrintInfo)

  /** The collaborators: str() and "%f" of a float, geom.h_flip_points,
      geom.v_flip_points, geom.rotate_points, extractRTFString and
      fileinfo.FileInfo. */
  datatype Env = Env(
    show: real -> string,
    fmt: real -> string,
    hflip: seq<seq<real>> -> seq<seq<real>>,
    vflip: seq<seq<real>> -> seq<seq<real>>,
    rotate: (seq<seq<real>>, real) -> seq<seq<real>>,
    rtf: Value -> Result<seq<Span>>,
    fileInfo: Value -> FileInfo)

  /** The extra_opts of a shaped graphic: HFlip, VFlip and Rotation. */
  datatype Opts = Opts(hflip: bool, vflip: bool, rotation: Option<real>)

  const NoOpts := Opts(false, false, None)

  /** A <tspan> line of a text element. */
  datatype TSpan = TSpan(x: real, y: real, style: Option<string>, text: string)

  /** An emitted SVG element. `style` is the scope stack in force when it
      was emitted (its CSS text is what CascadingStyles makes of it); a text
      element also carries the font fragment. */
  datatype Svg =
    | SvgRect(x: real, y: real, width: real, height: real, corner: Option<Value>, style: seq<Scope>)
    | SvgEllipse(cx: real, cy: real, rx: real, ry: real, style: seq<Scope>)
    | SvgPath(d: string, style: seq<Scope>)
    | SvgImage(x: real, y: real, width: real, height: real, href: Value, style: seq<Scope>)
    | SvgText(x: real, y: real, style: seq<Scope>, font: string, lines: seq<TSpan>)
    | SvgGroup(style: seq<Scope>, children: seq<Svg>)

  /** The parser's mutable state: the style scope stack, required_defs,
      svg_current_font, and the children of svg_current_layer. */
  datatype State = State(scopes: seq<Scope>, defs: set<string>, font: string, layer: seq<Svg>)

  /** After visiting a graphic: the same scope stack, more definitions but
      only known ones, and the elements emitted so far kept as a prefix. */
  predicate Grows(st: State, st2: State)
  {
    st2.scopes == st.scopes && st.defs <= st2.defs <= st.defs + DefNames && st.layer <= st2.layer
  }

  /** Like Grows, except that the innermost scope may have changed. */
  predicate Inner(st: State, st2: State)
  {
    |st2.scopes| == |st.scopes| > 0 &&
    st2.scopes[..|st.scopes| - 1] == st.scopes[..|st.scopes| - 1] &&
    st.defs <= st2.defs <= st.defs + DefNames && st.layer <= st2.layer
  }

  /** Only the layer grew, by some elements. */
  predicate Emitted(st: State, st2: State)
  {
    st2.scopes == st.scopes && st2.defs == st.defs && st2.font == st.font && st.layer <= st2.layer
  }

  function Push(st: State): State
  {
    st.(scopes := st.scopes + [map[]])
  }

  function Pop(st: State): State
    requires |st.scopes| > 0
  {
    st.(scopes := st.scopes[..|st.scopes| - 1])
  }

  function Emit(st: State, el: Svg): State
  {
    st.(layer := st.layer + [el])
  }

  /** d[k] on a dictionary. */
  function Lookup(m: map<string, Value>, k: string): (r: Result<Value>)
    ensures r.Ok? <==> k in m
    ensures r.Ok? ==> r.value == m[k]
    ensures r.Err? ==> r.fault == KeyError(k)
  {
    if k in m then Ok(m[k]) else Err(KeyError(k))
  }

  /** svgSetGraffleStyle on the innermost scope. */
  function StyleAt(fmt: real -> string, style: Value, st: State): (r: Result<State>)
    requires |st.scopes| > 0
    ensures r.Ok? ==> Inner(st, r.value) && r.value.layer == st.layer && r.value.font == st.font
  {
    var n := |st.scopes|;
    var e :- StyleStep(fmt, style, Effect(st.scopes[n - 1], st.defs));
    Ok(st.(scopes := st.scopes[..n - 1] + [e.scope], defs := e.defs))
  }

  /** self.style[k] = v. */
  function SetTop(st: State, k: string, v: string): (r: State)
    requires |st.scopes| > 0
    ensures Inner(st, r) && r.layer == st.layer && r.defs == st.defs && r.font == st.font
    ensures k in r.scopes[|r.scopes| - 1] && r.scopes[|r.scopes| - 1][k] == v
  {
    var n := |st.scopes|;
    st.(scopes := st.scopes[..n - 1] + [st.scopes[n - 1][k := v]])
  }

  // ----- the emitters -----

  /** The flips, then the rotation, of svg_addPath and svg_addBezier. */
  function Transform(env: Env, opts: Opts, pts: seq<seq<real>>): (r: seq<seq<real>>)
    ensures !opts.hflip && !opts.vflip && opts.rotation.None? ==> r == pts
    ensures opts.hflip && !opts.vflip && opts.rotation.None? ==> r == env.hflip(pts)
    ensures !opts.hflip && opts.vflip && opts.rotation.None? ==> r == env.vflip(pts)
    ensures opts.hflip && opts.vflip && opts.rotation.None? ==> r == env.vflip(env.hflip(pts))
    ensures !opts.hflip && !opts.vflip && opts.rotation.Some? ==> r == env.rotate(pts, opts.rotation.value)
  {
    var p1 := if opts.hflip then env.hflip(pts) else pts;
    var p2 := if opts.vflip then env.vflip(p1) else p1;
    if opts.rotation.Some? then env.rotate(p2, opts.rotation.value) else p2
  }

  /** svg_addPath: one path element through the transformed points. */
  function AddPath(env: Env, st: State, pts: seq<seq<real>>, close: bool, opts: Opts): (r: Result<State>)
    ensures r.Ok? ==> Emitted(st, r.value) && |r.value.layer| == |st.layer| + 1
    ensures r.Ok? ==> r.value.layer[|st.layer|].SvgPath? && r.value.layer[|st.layer|].style == st.scopes
  {
    var d :- PathData(CoordsTexts(env.show, Transform(env, opts, pts)), close);
    Ok(Emit(st, SvgPath(d, st.scopes)))
  }

  /** The path element svg_addPath emits through the given points when there
      is no flip and no rotation. */
  function PlainPath(env: Env, pts: seq<Point>, close: bool, style: seq<Scope>): Svg
    requires pts != []
  {
    SvgPath(PathData(CoordsTexts(env.show, AsLists(pts)), close).value, style)
  }

  /** Without flips or rotation, svg_addPath emits the plain path. */
  lemma PlainAddPath(env: Env, st: State, pts: seq<Point>, close: bool)
    requires pts != []
    ensures AddPath(env, st, AsLists(pts), close, NoOpts) == Ok(Emit(st, PlainPath(env, pts, close, st.scopes)))
  {
    assert Transform(env, NoOpts, AsLists(pts)) == AsLists(pts);
  }

  /** Without flips or rotation, the path runs through the points as
      given, one lineto per point after the first, and ends with " z"
      exactly when it is closed. */
  lemma AddPathPlain(env: Env, st: State, pts: seq<seq<real>>, close: bool)
    requires pts != []
    requires forall i :: 0 <= i < |pts| ==> NoZ([CoordsText(env.show, pts[i])]) && NoL([CoordsText(env.show, pts[i])])
    ensures AddPath(env, st, pts, close, NoOpts).Ok?
    ensures var d := AddPath(env, st, pts, close, NoOpts).value.layer[|st.layer|].d;
      Count(d, 'L') == |pts| - 1 && ((|d| >= 2 && d[|d| - 2..] == " z") <==> close)
  {
    var ts := CoordsTexts(env.show, pts);
    assert Transform(env, NoOpts, pts) == pts;
    assert NoZ(ts) && NoL(ts) by {
      forall i | 0 <= i < |ts|
        ensures 'z' !in ts[i] && 'L' !in ts[i]
      {
        assert NoZ([CoordsText(env.show, pts[i])]) && NoL([CoordsText(env.show, pts[i])]);
        assert [CoordsText(env.show, pts[i])][0] == ts[i];
      }
    }
    PathLineCount(ts, close);
    PathClosesIff(ts, close);
  }

  /** extractBoundCOordinates(graphic["Bounds"]). */
  function BoundsAt(m: map<string, Value>): (r: Result<seq<real>>)
    ensures "Bounds" !in m ==> r == Err(KeyError("Bounds"))
    ensures r.Ok? ==> "Bounds" in m && m["Bounds"].Str?
  {
    var v :- Lookup(m, "Bounds");
    BoundsOf(v)
  }

  /** The bounds rectangle of a shaped graphic, unpacked. */
  function BoxAt(m: map<string, Value>): (r: Result<Box>)
    ensures r.Ok? <==> BoundsAt(m).Ok? && |BoundsAt(m).value| == 4
    ensures r.Ok? ==> [r.value.x, r.value.y, r.value.w, r.value.h] == BoundsAt(m).value
  {
    var bounds :- BoundsAt(m);
    Unpack(bounds)
  }

  /** The extra_opts of svgAddGraffleShapedGraphic. */
  function OptsOf(m: map<string, Value>): (r: Result<Opts>)
    ensures r.Ok? ==> (r.value.hflip <==> FlagOn(m, "HFlip")) && (r.value.vflip <==> FlagOn(m, "VFlip"))
    ensures r.Ok? ==> (r.value.rotation.Some? <==> "Rotation" in m)
  {
    var rot :- match Find(m, "Rotation")
      case None => Ok(None)
      case Some(v) => (var a :- Float(v); Ok(Some(a)));
    Ok(Opts(FindOr(m, "HFlip", Txt("NO")) == Txt("YES"), FindOr(m, "VFlip", Txt("NO")) == Txt("YES"), rot))
  }

  /** A flip is on only when its entry is the text "YES". */
  predicate FlagOn(m: map<string, Value>, k: string)
  {
    k in m && m[k] == Str("YES")
  }

  // ----- svgAddGraffleShapedGraphic -----

  /** svg_addImage for a rect with an ImageID. Only the upper end of the
      index is checked: an id of len(imagelist) or more emits nothing, a
      negative id counts from the end of the list. */
  function ImageStep(images: Value, iv: Value, coords: seq<real>, st: State): (r: Result<State>)
    ensures r.Ok? ==> Emitted(st, r.value) && |r.value.layer| <= |st.layer| + 1
  {
    var id :- Int(iv);
    var n :- Len(images);
    if n <= id then Ok(st)
    else
      var image :- Item(images, id);
      var b :- Unpack(coords);
      Ok(Emit(st, SvgImage(b.x, b.y, b.w, b.h, image, st.scopes)))
  }

  /** Rectangle and RoundRect: an image when there is an ImageID, else a
      rect whose corner radius is the style's stroke CornerRadius. */
  function RectShape(images: Value, m: map<string, Value>, coords: seq<real>, st: State): (r: Result<State>)
    ensures r.Ok? ==> Emitted(st, r.value) && |r.value.layer| <= |st.layer| + 1
  {
    match Find(m, "ImageID")
    case Some(iv) => ImageStep(images, iv, coords, st)
    case None =>
      var sty := FindOr(m, "Style", Dict(map[]));
      if !sty.Dict? then Err(AttributeError)
      else
        var stroke := FindOr(sty.entries, "stroke", Dict(map[]));
        if !stroke.Dict? then Err(AttributeError)
        else
          var b :- FirstFour(coords);
          Ok(Emit(st, SvgRect(b.x, b.y, b.w, b.h, Find(stroke.entries, "CornerRadius"), st.scopes)))
  }

  /** A list comprehension over the items with a reader that may fail:
      the first failure is raised, otherwise item i reads as value i. */
  function ReadEach(read: Value -> Result<seq<real>>, items: seq<Value>): (r: Result<seq<seq<real>>>)
    ensures r.Ok? ==> |r.value| == |items|
    ensures r.Ok? ==> forall i :: 0 <= i < |items| ==> read(items[i]) == Ok(r.value[i])
    ensures r.Ok? <==> forall i :: 0 <= i < |items| ==> read(items[i]).Ok?
  {
    if items == [] then Ok([])
    else
      var p :- read(items[0]);
      var rest :- ReadEach(read, items[1..]);
      assert forall i :: 0 < i < |items| ==> items[i] == items[1..][i - 1];
      Ok([p] + rest)
  }

  /** The coordinates of every unit point of a bezier. */
  function BoundsEach(items: seq<Value>): (r: Result<seq<seq<real>>>)
    ensures r.Ok? ==> |r.value| == |items|
    ensures r.Ok? ==> forall i :: 0 <= i < |items| ==> BoundsOf(items[i]) == Ok(r.value[i])
  {
    ReadEach(BoundsOf, items)
  }

  /** Every unit point scaled by the half-width and half-height and moved
      to the centre of the box; a point with fewer than two numbers raises
      IndexError. */
  function UnitPointsIn(b: Box, units: seq<seq<real>>): (r: Result<seq<seq<real>>>)
    ensures r.Ok? <==> forall i :: 0 <= i < |units| ==> |units[i]| >= 2
    ensures r.Ok? ==> |r.value| == |units|
    ensures r.Ok? ==> forall i :: 0 <= i < |units| ==> r.value[i] == AsList(FromUnit(b, Point(units[i][0], units[i][1])))
  {
    if units == [] then Ok([])
    else if |units[0]| < 2 then Err(IndexError)
    else
      var rest :- UnitPointsIn(b, units[1..]);
      Ok([AsList(FromUnit(b, Point(units[0][0], units[0][1])))] + rest)
  }

  /** svg_addBezier: ShapeData's UnitPoints mapped into the bounds, as an
      open path. */
  function BezierShape(env: Env, m: map<string, Value>, opts: Opts, st: State): (r: Result<State>)
    ensures r.Ok? ==> Emitted(st, r.value) && |r.value.layer| == |st.layer| + 1
  {
    var bounds :- BoundsAt(m);
    var sd :- Lookup(m, "ShapeData");
    var ups :- Index(sd, "UnitPoints");
    var items :- Items(ups);
    var units :- BoundsEach(items);
    var b :- FirstFour(bounds);
    var pts :- UnitPointsIn(b, units);
    AddPath(env, st, pts, false, opts)
  }

  /** svg_addEllipse, which ignores the flip and rotation options. */
  function CircleShape(m: map<string, Value>, st: State): (r: Result<State>)
    ensures r.Ok? ==> Emitted(st, r.value) && |r.value.layer| == |st.layer| + 1
  {
    var bounds :- BoundsAt(m);
    var b :- FirstFour(bounds);
    var e := Ellipse(b);
    Ok(Emit(st, SvgEllipse(e.0.x, e.0.y, e.1, e.2, st.scopes)))
  }

  /** svg_addAdjustableArrow: ShapeData's ratio and width shape a closed
      seven-point path. */
  function ArrowShape(env: Env, m: map<string, Value>, opts: Opts, st: State): (r: Result<State>)
    ensures r.Ok? ==> Emitted(st, r.value) && |r.value.layer| == |st.layer| + 1
  {
    var b :- BoxAt(m);
    var sd :- Lookup(m, "ShapeData");
    var rv :- Index(sd, "ratio");
    var ratio :- Float(rv);
    var wv :- Index(sd, "width");
    var neck :- Float(wv);
    AddPath(env, st, AsLists(Arrow(b, ratio, neck)), true, opts)
  }

  /** svg_addSubprocess: a rect without corners, then its two open
      vertical lines. */
  function SubprocessShape(env: Env, m: map<string, Value>, opts: Opts, st: State): (r: Result<State>)
    ensures r.Ok? ==> Emitted(st, r.value) && |r.value.layer| == |st.layer| + 3
  {
    var b :- BoxAt(m);
    var st1 := Emit(st, SvgRect(b.x, b.y, b.w, b.h, None, st.scopes));
    var lines := SubprocessLines(b);
    var st2 :- AddPath(env, st1, AsLists(lines.0), false, opts);
    AddPath(env, st2, AsLists(lines.1), false, opts)
  }

  /** The shapes drawn as a closed path through a fixed vertex list. */
  function PolygonShape(env: Env, shape: string, m: map<string, Value>, opts: Opts, st: State): (r: Result<State>)
    requires shape in {"HorizontalTriangle", "RightTriangle", "VerticalTriangle", "Diamond"}
    ensures r.Ok? ==> Emitted(st, r.value) && |r.value.layer| == |st.layer| + 1
  {
    var b :- BoxAt(m);
    var pts :=
      if shape == "HorizontalTriangle" then HorizontalTriangle(b)
      else if shape == "RightTriangle" then RightTriangle(b)
      else if shape == "VerticalTriangle" then VerticalTriangle(b)
      else Diamond(b);
    AddPath(env, st, AsLists(pts), true, opts)
  }

  /** The shapes svgAddGraffleShapedGraphic knows how to draw. */
  const ShapeNames: set<string> := {"Rectangle", "RoundRect", "HorizontalTriangle", "RightTriangle",
    "VerticalTriangle", "Circle", "Bezier", "AdjustableArrow", "Diamond", "Subprocess", "Cloud"}

  /** svgAddGraffleShapedGraphic: the shape picks the emitter; an unknown
      shape draws nothing. At most three elements are emitted, and nothing
      but the layer changes. */
  function ShapedStep(env: Env, images: Value, m: map<string, Value>, st: State): (r: Result<State>)
    ensures r.Ok? ==> Emitted(st, r.value) && |r.value.layer| <= |st.layer| + 3
    ensures "Shape" !in m ==> r == Err(KeyError("Shape"))
    ensures "Shape" in m && OptsOf(m).Ok? && !(m["Shape"].Str? && m["Shape"].s in ShapeNames) ==> r == Ok(st)
  {
    var shape :- Lookup(m, "Shape");
    var opts :- OptsOf(m);
    if shape == Txt("Rectangle") || shape == Txt("RoundRect") then
      var coords :- BoundsAt(m);
      RectShape(images, m, coords, st)
    else if shape == Txt("HorizontalTriangle") then PolygonShape(env, "HorizontalTriangle", m, opts, st)
    else if shape == Txt("RightTriangle") then PolygonShape(env, "RightTriangle", m, opts, st)
    else if shape == Txt("VerticalTriangle") then PolygonShape(env, "VerticalTriangle", m, opts, st)
    else if shape == Txt("Circle") then CircleShape(m, st)
    else if shape == Txt("Bezier") then BezierShape(env, m, opts, st)
    else if shape == Txt("AdjustableArrow") then ArrowShape(env, m, opts, st)
    else if shape == Txt("Diamond") then PolygonShape(env, "Diamond", m, opts, st)
    else if shape == Txt("Subprocess") then SubprocessShape(env, m, opts, st)
    else if shape == Txt("Cloud") then
      var b :- BoxAt(m);
      Ok(Emit(st, SvgRect(b.x, b.y, b.w, b.h, None, st.scopes)))
    else Ok(st)
  }

  // ----- LineGraphic -----

  /** parseCoords of every magnet point. */
  function CoordsEach(items: seq<Value>): (r: Result<seq<seq<real>>>)
    ensures r.Ok? ==> |r.value| == |items|
    ensures r.Ok? ==> forall i :: 0 <= i < |items| ==> CoordsOf(items[i]) == Ok(r.value[i])
  {
    ReadEach(CoordsOf, items)
  }

  /** With OrthogonalBarAutomatic equal to False, a given
      OrthogonalBarPosition is read as a float (and then not used). */
  function BarPosition(m: map<string, Value>): (r: Result<Option<real>>)
    ensures r.Ok? && r.value.Some? ==> "OrthogonalBarPosition" in m
  {
    if "OrthogonalBarAutomatic" in m && EqualsInt(m["OrthogonalBarAutomatic"], 0) then
      match Find(m, "OrthogonalBarPosition")
      case None => Ok(None)
      case Some(v) => var p :- Float(v); Ok(Some(p))
    else Ok(None)
  }

  /** A line: its points, fill "none" in the innermost scope, and an open
      path without flips. */
  function LineStep(env: Env, m: map<string, Value>, st: State): (r: Result<State>)
    requires |st.scopes| > 0
    ensures r.Ok? ==> Inner(st, r.value) && r.value.font == st.font && r.value.defs == st.defs
    ensures r.Ok? ==> |r.value.layer| == |st.layer| + 1
  {
    var pv :- Lookup(m, "Points");
    var items :- Items(pv);
    var pts :- CoordsEach(items);
    var st1 := SetTop(st, "fill", "none");
    var bar :- BarPosition(m);
    AddPath(env, st1, pts, false, NoOpts)
  }

  // ----- text -----

  /** svg_addLine: line i sits 12 units below line i - 1, the first one
      12 units below the text's y. */
  function Line(x: real, y: real, i: nat, span: Span): (r: TSpan)
    ensures r.x == x && r.text == span.text && r.style == span.style
    ensures r.y >= y + 12.0
  {
    TSpan(x, y + 12.0 * ((i + 1) as real), span.style, span.text)
  }

  /** The loop of svg_addText over the lines of the RTF text. */
  function Lines(x: real, y: real, spans: seq<Span>): (r: seq<TSpan>)
    ensures |r| == |spans|
    ensures forall i :: 0 <= i < |spans| ==>
      r[i].x == x && r[i].y == y + 12.0 * ((i + 1) as real) &&
      r[i].text == spans[i].text && r[i].style == spans[i].style
  {
    if spans == [] then []
    else Lines(x, y, spans[..|spans| - 1]) + [Line(x, y, |spans| - 1, spans[|spans| - 1])]
  }

  /** The text of a graphic: the font first, then the text element. */
  function TextStep(env: Env, m: map<string, Value>, t: Value, st: State): (r: Result<State>)
    ensures r.Ok? ==> r.value.scopes == st.scopes && r.value.defs == st.defs
    ensures r.Ok? ==> |r.value.layer| == |st.layer| + 1 && r.value.layer[..|st.layer|] == st.layer
    ensures r.Ok? ==> r.value.layer[|st.layer|].SvgText?
  {
    var coords :- BoundsAt(m);
    var font :- FontStep(Find(m, "FontInfo"), st.font);
    PlaceText(env, coords, t, st.(font := font))
  }

  /** The text element at the bounds' corner moved by Pad and
      VerticalPad, with the current font and the lines of the RTF text. */
  function PlaceText(env: Env, coords: seq<real>, t: Value, st: State): (r: Result<State>)
    ensures r.Ok? ==> Emitted(st, r.value) && |r.value.layer| == |st.layer| + 1
    ensures r.Ok? ==> r.value.layer[|st.layer|].SvgText? && r.value.layer[|st.layer|].font == st.font
  {
    var b :- Unpack(coords);
    if !t.Dict? then Err(AttributeError)
    else
      var pad :- Float(FindOr(t.entries, "Pad", Number(0)));
      var vpad :- Float(FindOr(t.entries, "VerticalPad", Number(0)));
      var spans :- env.rtf(FindOr(t.entries, "Text", Txt("")));
      Ok(Emit(st, SvgText(b.x + pad, b.y + vpad, st.scopes, st.font, Lines(b.x + pad, b.y + vpad, spans))))
  }

  // ----- svgItterateGraffleGraphics -----

  /** One graphic of the loop: a fresh scope, the graphic drawn in it,
      then the scope popped again. Whatever it draws, the scope stack is
      left as it was found. */
  function Visit(env: Env, images: Value, g: Value, st: State): (r: Result<State>)
    ensures r.Ok? ==> Grows(st, r.value)
    decreases g, 5
  {
    if !g.Dict? then Err(AttributeError)
    else
      var st1 :- Draw(env, images, g, Push(st));
      assert st1.scopes[..|st.scopes|] == st.scopes;
      Ok(Pop(st1))
  }

  /** The graphic in its own scope: its Style, its Class, then its Text. */
  function Draw(env: Env, images: Value, g: Value, st: State): (r: Result<State>)
    requires g.Dict? && |st.scopes| > 0
    ensures r.Ok? ==> Inner(st, r.value)
    decreases g, 4
  {
    var m := g.entries;
    var st1 :- match Find(m, "Style") case None => Ok(st) case Some(s) => StyleAt(env.fmt, s, st);
    var cls :- Lookup(m, "Class");
    var st2 :- Dispatch(env, images, g, cls, st1);
    match Find(m, "Text") case None => Ok(st2) case Some(t) => TextStep(env, m, t, st2)
  }

  /** The branch on the graphic's Class; SolidGraphic is drawn as a shape
      whose Shape defaults to "Rectangle", and an unknown class draws
      nothing. */
  function Dispatch(env: Env, images: Value, g: Value, cls: Value, st: State): (r: Result<State>)
    requires g.Dict? && |st.scopes| > 0
    ensures r.Ok? ==> Inner(st, r.value)
    decreases g, 3
  {
    if cls == Txt("SolidGraphic") then ShapedStep(env, images, map["Shape" := Txt("Rectangle")] + g.entries, st)
    else if cls == Txt("ShapedGraphic") then ShapedStep(env, images, g.entries, st)
    else if cls == Txt("LineGraphic") then LineStep(env, g.entries, st)
    else if cls == Txt("TableGroup") || cls == Txt("Group") then GroupStep(env, images, g, st)
    else Ok(st)
  }

  /** Group and TableGroup with Graphics: a new scope and a new g element
      whose children are the sub-graphics visited in reverse order; then
      the scope is popped and the enclosing layer gets the g element. */
  function GroupStep(env: Env, images: Value, g: Value, st: State): (r: Result<State>)
    requires g.Dict? && |st.scopes| > 0
    ensures r.Ok? ==> Grows(st, r.value)
    ensures r.Ok? ==> |r.value.layer| <= |st.layer| + 1
    decreases g, 2
  {
    match Find(g.entries, "Graphics")
    case None => Ok(st)
    case Some(sub) =>
      var inner := Push(st).(layer := []);
      var st1 :- WalkReversed(env, images, sub, inner);
      Ok(Pop(st1).(layer := st.layer + [SvgGroup(inner.scopes, st1.layer)]))
  }

  /** `for graphics in reversed(sub)`: a list is visited from its last
      item to its first; the characters of a string would each fail as a
      graphic; reversed() of any other value raises TypeError. */
  function WalkReversed(env: Env, images: Value, sub: Value, st: State): (r: Result<State>)
    ensures r.Ok? ==> Grows(st, r.value)
    decreases sub, 1
  {
    match sub
    case Array(a) => WalkRevFrom(env, images, sub, |a|, st)
    case Str(s) => if s == [] then Ok(st) else Err(AttributeError)
    case _ => Err(TypeError)
  }

  /** Items i - 1 down to 0 of the list. */
  function WalkRevFrom(env: Env, images: Value, sub: Value, i: nat, st: State): (r: Result<State>)
    requires sub.Array? && i <= |sub.items|
    ensures r.Ok? ==> Grows(st, r.value)
    decreases sub, 0, i
  {
    if i == 0 then Ok(st)
    else
      var st1 :- Visit(env, images, sub.items[i - 1], st);
      WalkRevFrom(env, images, sub, i - 1, st1)
  }

  /** Graphics visited in the order given. */
  function WalkSeq(env: Env, images: Value, items: seq<Value>, st: State): (r: Result<State>)
    ensures r.Ok? ==> Grows(st, r.value)
  {
    if items == [] then Ok(st)
    else
      var st1 :- Visit(env, images, items[0], st);
      WalkSeq(env, images, items[1..], st1)
  }

  /** `for graphics in v` at the top level: a list in its stored order; the
      characters of a string, or the keys of a dict, would each fail as a
      graphic; any other value cannot be iterated. */
  function WalkList(env: Env, images: Value, v: Value, st: State): (r: Result<State>)
    ensures r.Ok? ==> Grows(st, r.value)
  {
    match v
    case Array(a) => WalkSeq(env, images, a, st)
    case Str(s) => if s == [] then Ok(st) else Err(AttributeError)
    case Dict(m) => if m == map[] then Ok(st) else Err(AttributeError)
    case _ => Err(TypeError)
  }

  // ----- extractPage and walkGraffleDoc -----

  /** Version 5: a CanvasColor gives a background rect at CanvasOrigin as
      large as the paper less its margins. */
  function CanvasStep(info: FileInfo, page: Value, st: State): (r: Result<State>)
    ensures r.Ok? ==> Emitted(st, r.value) && |r.value.layer| <= |st.layer| + 1
  {
    if !page.Dict? then Err(AttributeError)
    else
      var m := page.entries;
      match Find(m, "CanvasColor")
      case None => Ok(st)
      case Some(_) =>
        var origin :- CoordsOf(FindOr(m, "CanvasOrigin", Txt(DefaultOrigin)));
        if |origin| != 2 then Err(ValueError)
        else
          var p := info.printInfo;
          Ok(Emit(st, SvgRect(origin[0], origin[1], p.paperWidth - p.left - p.right,
                              p.paperHeight - p.bottom - p.top, None, st.scopes)))
  }

  /** extractPage: the background (the BackgroundGraphic from version 6 on,
      the canvas colour before), then the GraphicsList in order. */
  function ExtractPage(env: Env, info: FileInfo, images: Value, page: Value, st: State): (r: Result<State>)
    ensures r.Ok? ==> Grows(st, r.value)
  {
    var st1 :-
      if info.version >= 6.0 then
        var bg :- Index(page, "BackgroundGraphic");
        WalkList(env, images, Array([bg]), st)
      else CanvasStep(info, page, st);
    var gl :- Index(page, "GraphicsList");
    WalkList(env, images, gl, st1)
  }

  /** The parser's state together with the two fields walkGraffleDoc sets:
      imagelist and fileinfo. */
  datatype DocState = DocState(st: State, images: Value, info: Option<FileInfo>)

  /** The end of walkGraffleDoc when a top-level dict was found: read the
      file information and the image list, then extract the requested
      sheet, or the dict itself when there are no Sheets. */
  function DocDict(env: Env, d: Value, page: int, ds: DocState): (r: Result<DocState>)
    ensures r.Ok? ==> Grows(ds.st, r.value.st)
    ensures !d.Dict? ==> r == Err(AttributeError)
    ensures d.Dict? && "Sheets" in d.entries && Item(d.entries["Sheets"], page).Err? ==>
      r == Err(Item(d.entries["Sheets"], page).fault)
    ensures d.Dict? && r.Ok? ==>
      r.value.info == Some(env.fileInfo(d)) && r.value.images == FindOr(d.entries, "ImageList", Array([]))
    ensures d.Dict? && "Sheets" in d.entries && Item(d.entries["Sheets"], page).Ok? ==>
      var p := ExtractPage(env, env.fileInfo(d), FindOr(d.entries, "ImageList", Array([])), Item(d.entries["Sheets"], page).value, ds.st);
      (r.Ok? <==> p.Ok?) && (r.Ok? ==> r.value.st == p.value)
    ensures d.Dict? && "Sheets" !in d.entries ==>
      var p := ExtractPage(env, env.fileInfo(d), FindOr(d.entries, "ImageList", Array([])), d, ds.st);
      (r.Ok? <==> p.Ok?) && (r.Ok? ==> r.value.st == p.value)
  {
    if !d.Dict? then Err(AttributeError)
    else
      var info := env.fileInfo(d);
      var images := FindOr(d.entries, "ImageList", Array([]));
      var sheet :- match Find(d.entries, "Sheets") case None => Ok(d) case Some(s) => Item(s, page);
      var st :- ExtractPage(env, info, images, sheet, ds.st);
      Ok(DocState(st, images, Some(info)))
  }

  /** walkGraffleDoc over the children of a node: a plist element is
      walked in turn, the last dict element is the document. */
  function DocWalk(env: Env, nodes: seq<XmlNode>, page: int, ds: DocState): (r: Result<DocState>)
    ensures r.Ok? ==> Grows(ds.st, r.value.st)
    decreases nodes, 1
  {
    DocFrom(env, nodes, 0, None, page, ds)
  }

  function DocFrom(env: Env, nodes: seq<XmlNode>, i: nat, found: Option<Value>, page: int, ds: DocState): (r: Result<DocState>)
    requires i <= |nodes|
    ensures r.Ok? ==> Grows(ds.st, r.value.st)
    decreases nodes, 0, |nodes| - i
  {
    if i == |nodes| then
      match found
      case None => Ok(ds)
      case Some(d) => DocDict(env, d, page, ds)
    else
      var e := nodes[i];
      var ds1 :- if e.Element? && e.name == "plist" then DocWalk(env, e.children, page, ds) else Ok(ds);
      var found1 :- if e.Element? && e.name == "dict" then (var d :- DictFrom(e, 0, Unset, map[]); Ok(Some(d))) else Ok(found);
      DocFrom(env, nodes, i + 1, found1, page, ds1)
  }

  /** The document built by walkGraffle: the definitions required while
      walking, in svg_add_requirements' order, then the top-level g element
      with the initial style and everything drawn into it. */
  datatype Output = Output(defs: seq<string>, style: seq<Scope>, layer: seq<Svg>)

  /** The style the parser starts with: one scope with a white fill and a
      black stroke. */
  const InitialScopes: seq<Scope> := [map["fill" := "#fff", "stroke" := "#000000"]]

  const Initial := DocState(State(InitialScopes, {}, "", []), Array([]), None)

  /** walkGraffle of a parsed document. */
  function Convert(env: Env, doc: seq<XmlNode>, page: int): (r: Result<Output>)
    ensures r.Ok? ==> r.value.style == InitialScopes
    ensures r.Ok? ==> forall d :: d in r.value.defs ==> d in DefNames
  {
    var ds :- DocWalk(env, doc, page, Initial);
    RequiredMembers(DefOrder, ds.st.defs);
    Ok(Output(Required(DefOrder, ds.st.defs), InitialScopes, ds.st.layer))
  }

  // ----- what the walk promises -----

  function Reverse<T>(s: seq<T>): (r: seq<T>)
    ensures |r| == |s| && forall i :: 0 <= i < |s| ==> r[i] == s[|s| - 1 - i]
  {
    if s == [] then [] else Reverse(s[1..]) + [s[0]]
  }

  /** The children of a group are visited in the reverse of their stored
      order. */
  lemma {:induction false} WalkRevFromReverse(env: Env, images: Value, sub: Value, i: nat, st: State)
    requires sub.Array? && i <= |sub.items|
    ensures WalkRevFrom(env, images, sub, i, st) == WalkSeq(env, images, Reverse(sub.items[..i]), st)
    decreases i
  {
    if i > 0 {
      var a := sub.items;
      var rest := Reverse(a[..i - 1]);
      ReverseLast(a[..i]);
      assert a[..i][..i - 1] == a[..i - 1];
      assert ([a[i - 1]] + rest)[1..] == rest;
      var v := Visit(env, images, a[i - 1], st);
      if v.Ok? {
        WalkRevFromReverse(env, images, sub, i - 1, v.value);
      }
    }
  }

  /** The reverse of a list starts with its last element. */
  lemma {:induction false} ReverseLast<T>(s: seq<T>)
    requires s != []
    ensures Reverse(s) == [s[|s| - 1]] + Reverse(s[..|s| - 1])
  {
    if |s| > 1 {
      var init := s[..|s| - 1];
      ReverseLast(s[1..]);
      assert s[1..][..|s| - 2] == init[1..];
      assert s[1..][|s| - 2] == s[|s| - 1];
      assert init[0] == s[0];
      assert Reverse(init) == Reverse(init[1..]) + [s[0]];
    }
  }

  /** A Group or TableGroup with a list of Graphics appends exactly one g
      element to the current layer. Its style is the stack with one more
      scope, its children are what visiting the sub-graphics from last to
      first draws into an empty layer, and the scope stack is restored. */
  lemma GroupAppendsOne(env: Env, images: Value, g: Value, cls: Value, a: seq<Value>, st: State)
    requires g.Dict? && |st.scopes| > 0 && (cls == Txt("Group") || cls == Txt("TableGroup"))
    requires "Graphics" in g.entries && g.entries["Graphics"] == Array(a)
    requires Dispatch(env, images, g, cls, st).Ok?
    ensures var inner := State(st.scopes + [map[]], st.defs, st.font, []);
      var w := WalkSeq(env, images, Reverse(a), inner);
      var r := Dispatch(env, images, g, cls, st).value;
      w.Ok? && r.scopes == st.scopes && r.defs == w.value.defs && r.font == w.value.font &&
      r.layer == st.layer + [SvgGroup(st.scopes + [map[]], w.value.layer)]
  {
    var inner := State(st.scopes + [map[]], st.defs, st.font, []);
    assert Push(st).(layer := []) == inner;
    assert a[..|a|] == a;
    assert Dispatch(env, images, g, cls, st) == GroupStep(env, images, g, st);
    assert WalkReversed(env, images, Array(a), inner) == WalkRevFrom(env, images, Array(a), |a|, inner);
    WalkRevFromReverse(env, images, Array(a), |a|, inner);
    assert inner.scopes[..|st.scopes|] == st.scopes;
  }

  /** A graphic whose Class is none of those drawn, and which has neither
      Style nor Text, changes nothing. */
  lemma UnknownClassDrawsNothing(env: Env, images: Value, m: map<string, Value>, st: State)
    requires "Class" in m && "Style" !in m && "Text" !in m
    requires m["Class"] !in {Txt("SolidGraphic"), Txt("ShapedGraphic"), Txt("LineGraphic"), Txt("TableGroup"), Txt("Group")}
    ensures Visit(env, images, Dict(m), st) == Ok(st)
  {
    var g := Dict(m);
    assert Draw(env, images, g, Push(st)) == Ok(Push(st));
    assert (st.scopes + [map[]])[..|st.scopes|] == st.scopes;
  }

  /** A line is drawn unfilled: the path it emits carries a stack whose
      innermost scope sets fill to "none". */
  /** A line is the open path through its magnet points, drawn with fill
      none in the innermost scope. */
  lemma LinePath(env: Env, m: map<string, Value>, st: State, items: seq<Value>, pts: seq<seq<real>>)
    requires |st.scopes| > 0 && "Points" in m && Items(m["Points"]) == Ok(items)
    requires CoordsEach(items) == Ok(pts) && pts != [] && BarPosition(m).Ok?
    ensures var st1 := SetTop(st, "fill", "none");
      LineStep(env, m, st) == Ok(Emit(st1, SvgPath(PathData(CoordsTexts(env.show, pts), false).value, st1.scopes)))
  {
    assert Transform(env, NoOpts, pts) == pts;
  }

  lemma LineUnfilled(env: Env, m: map<string, Value>, st: State)
    requires |st.scopes| > 0 && LineStep(env, m, st).Ok?
    ensures var r := LineStep(env, m, st).value;
      var el := r.layer[|st.layer|];
      el.SvgPath? && |el.style| == |st.scopes| && el.style[|st.scopes| - 1]["fill"] == "none"
  {
  }

  /** TextStep fails where the bounds or the font fail, and otherwise
      places the text, with the new font, at the bounds. */
  lemma TextStepCases(env: Env, m: map<string, Value>, t: Value, st: State)
    ensures BoundsAt(m).Err? ==> TextStep(env, m, t, st) == Err(BoundsAt(m).fault)
    ensures BoundsAt(m).Ok? && FontStep(Find(m, "FontInfo"), st.font).Err? ==>
      TextStep(env, m, t, st) == Err(FontStep(Find(m, "FontInfo"), st.font).fault)
    ensures BoundsAt(m).Ok? && FontStep(Find(m, "FontInfo"), st.font).Ok? ==>
      TextStep(env, m, t, st) == PlaceText(env, BoundsAt(m).value, t, st.(font := FontStep(Find(m, "FontInfo"), st.font).value))
  {
  }

  /** Text starts at the bounds' corner moved by Pad and VerticalPad, and
      line i sits at that y plus 12 (i + 1). */
  lemma TextPosition(env: Env, x: real, y: real, w: real, h: real, t: map<string, Value>, st: State, pad: real, vpad: real)
    requires Float(FindOr(t, "Pad", Number(0))) == Ok(pad)
    requires Float(FindOr(t, "VerticalPad", Number(0))) == Ok(vpad)
    requires PlaceText(env, [x, y, w, h], Dict(t), st).Ok?
    ensures var el := PlaceText(env, [x, y, w, h], Dict(t), st).value.layer[|st.layer|];
      el.x == x + pad && el.y == y + vpad &&
      forall i :: 0 <= i < |el.lines| ==> el.lines[i].x == x + pad && el.lines[i].y == y + vpad + 12.0 * ((i + 1) as real)
  {
    var spans := env.rtf(FindOr(t, "Text", Txt(""))).value;
    var el := SvgText(x + pad, y + vpad, st.scopes, st.font, Lines(x + pad, y + vpad, spans));
    assert Unpack([x, y, w, h]) == Ok(Box(x, y, w, h));
    assert PlaceText(env, [x, y, w, h], Dict(t), st) == Ok(Emit(st, el));
    assert Emit(st, el).layer[|st.layer|] == el;
  }

  /** Without Pad and VerticalPad the text starts at the bounds' corner. */
  lemma TextUnpadded(env: Env, x: real, y: real, w: real, h: real, t: map<string, Value>, st: State)
    requires "Pad" !in t && "VerticalPad" !in t
    requires PlaceText(env, [x, y, w, h], Dict(t), st).Ok?
    ensures var el := PlaceText(env, [x, y, w, h], Dict(t), st).value.layer[|st.layer|];
      el.x == x && el.y == y
  {
    assert FindOr(t, "Pad", Number(0)) == Number(0) && FindOr(t, "VerticalPad", Number(0)) == Number(0);
    assert Float(Number(0)) == Ok(0.0);
    TextPosition(env, x, y, w, h, t, st, 0.0, 0.0);
  }

  /** A rect's corner radius is the CornerRadius of the style's stroke;
      there is none when the style, its stroke or the radius is missing. */
  lemma RectCorner(images: Value, m: map<string, Value>, coords: seq<real>, st: State, s: map<string, Value>, k: map<string, Value>)
    requires "ImageID" !in m
    requires FindOr(m, "Style", Dict(map[])) == Dict(s) && FindOr(s, "stroke", Dict(map[])) == Dict(k)
    requires RectShape(images, m, coords, st).Ok?
    ensures var el := RectShape(images, m, coords, st).value.layer[|st.layer|];
      el.SvgRect? && (el.corner.Some? <==> "CornerRadius" in k) &&
      (el.corner.Some? ==> el.corner.value == k["CornerRadius"])
    ensures FirstFour(coords).Ok?
    ensures var b := FirstFour(coords).value;
      RectShape(images, m, coords, st) == Ok(Emit(st, SvgRect(b.x, b.y, b.w, b.h, Find(k, "CornerRadius"), st.scopes)))
  {
  }

  /** A bezier is drawn as an open path: its path data never ends with the
      closepath command, when str() of a float never writes a 'z'. */
  lemma BezierOpen(env: Env, m: map<string, Value>, opts: Opts, st: State)
    requires forall x :: 'z' !in env.show(x)
    requires BezierShape(env, m, opts, st).Ok?
    ensures var el := BezierShape(env, m, opts, st).value.layer[|st.layer|];
      el.SvgPath? && !(|el.d| >= 2 && el.d[|el.d| - 2..] == " z")
  {
    var bounds := BoundsAt(m).value;
    var ups := Index(Lookup(m, "ShapeData").value, "UnitPoints").value;
    var units := BoundsEach(Items(ups).value).value;
    var pts := UnitPointsIn(FirstFour(bounds).value, units).value;
    assert BezierShape(env, m, opts, st) == AddPath(env, st, pts, false, opts);
    var ts := CoordsTexts(env.show, Transform(env, opts, pts));
    CoordsTextsNoZ(env.show, Transform(env, opts, pts));
    PathClosesIff(ts, false);
  }

  /** Without flips or rotation, a bezier is the open path through its
      unit points mapped into the first four bounds. */
  lemma BezierPath(env: Env, m: map<string, Value>, st: State, bounds: seq<real>, b: Box, units: seq<seq<real>>, pts: seq<seq<real>>)
    requires BoundsAt(m) == Ok(bounds) && FirstFour(bounds) == Ok(b) && "ShapeData" in m
    requires Index(m["ShapeData"], "UnitPoints").Ok?
    requires Items(Index(m["ShapeData"], "UnitPoints").value).Ok?
    requires BoundsEach(Items(Index(m["ShapeData"], "UnitPoints").value).value) == Ok(units)
    requires UnitPointsIn(b, units) == Ok(pts) && pts != []
    ensures BezierShape(env, m, NoOpts, st) == Ok(Emit(st, SvgPath(PathData(CoordsTexts(env.show, pts), false).value, st.scopes)))
  {
    assert Transform(env, NoOpts, pts) == pts;
  }

  /** A circle is the ellipse inscribed in the first four bounds: centred
      in the box, with half its width and half its height as radii. */
  lemma CircleEllipse(m: map<string, Value>, st: State, bounds: seq<real>, b: Box)
    requires BoundsAt(m) == Ok(bounds) && FirstFour(bounds) == Ok(b)
    ensures CircleShape(m, st).Ok?
    ensures var el := CircleShape(m, st).value.layer[|st.layer|];
      CircleShape(m, st) == Ok(Emit(st, el)) && el.SvgEllipse? && el.style == st.scopes
      && Point(el.cx, el.cy) == Centre(b)
      && el.cx - el.rx == b.x && el.cx + el.rx == b.x + b.w
      && el.cy - el.ry == b.y && el.cy + el.ry == b.y + b.h
  {
  }

  /** Each polygon is one closed path through its own vertex list (see
      Geometry for where the vertices lie). */
  lemma PolygonPath(env: Env, shape: string, m: map<string, Value>, st: State, b: Box)
    requires shape in {"HorizontalTriangle", "RightTriangle", "VerticalTriangle", "Diamond"}
    requires BoxAt(m) == Ok(b)
    ensures shape == "Diamond" ==>
      PolygonShape(env, shape, m, NoOpts, st) == Ok(Emit(st, PlainPath(env, Diamond(b), true, st.scopes)))
    ensures shape == "HorizontalTriangle" ==>
      PolygonShape(env, shape, m, NoOpts, st) == Ok(Emit(st, PlainPath(env, HorizontalTriangle(b), true, st.scopes)))
    ensures shape == "RightTriangle" ==>
      PolygonShape(env, shape, m, NoOpts, st) == Ok(Emit(st, PlainPath(env, RightTriangle(b), true, st.scopes)))
    ensures shape == "VerticalTriangle" ==>
      PolygonShape(env, shape, m, NoOpts, st) == Ok(Emit(st, PlainPath(env, VerticalTriangle(b), true, st.scopes)))
  {
    var pts :=
      if shape == "HorizontalTriangle" then HorizontalTriangle(b)
      else if shape == "RightTriangle" then RightTriangle(b)
      else if shape == "VerticalTriangle" then VerticalTriangle(b)
      else Diamond(b);
    assert PolygonShape(env, shape, m, NoOpts, st) == AddPath(env, st, AsLists(pts), true, NoOpts);
    PlainAddPath(env, st, pts, true);
  }

  /** The adjustable arrow is one closed path through the seven points its
      ratio and neck width give. */
  lemma ArrowPath(env: Env, m: map<string, Value>, st: State, b: Box, ratio: real, neck: real)
    requires BoxAt(m) == Ok(b) && "ShapeData" in m
    requires Index(m["ShapeData"], "ratio").Ok? && Float(Index(m["ShapeData"], "ratio").value) == Ok(ratio)
    requires Index(m["ShapeData"], "width").Ok? && Float(Index(m["ShapeData"], "width").value) == Ok(neck)
    ensures ArrowShape(env, m, NoOpts, st) == Ok(Emit(st, PlainPath(env, Arrow(b, ratio, neck), true, st.scopes)))
  {
    PlainAddPath(env, st, Arrow(b, ratio, neck), true);
  }

  /** A subprocess is its box without rounded corners, then the two open
      vertical lines a tenth of the width in from each side. */
  lemma SubprocessParts(env: Env, m: map<string, Value>, st: State, b: Box)
    requires BoxAt(m) == Ok(b)
    ensures var lines := SubprocessLines(b);
      SubprocessShape(env, m, NoOpts, st) == Ok(st.(layer := st.layer + [
        SvgRect(b.x, b.y, b.w, b.h, None, st.scopes),
        PlainPath(env, lines.0, false, st.scopes),
        PlainPath(env, lines.1, false, st.scopes)]))
  {
    var lines := SubprocessLines(b);
    SubprocessSteps(env, m, st, b);
    OpenPathsAfter(env, st, SvgRect(b.x, b.y, b.w, b.h, None, st.scopes), lines.0, lines.1);
  }

  /** The three steps of a subprocess without flips or rotation. */
  lemma SubprocessSteps(env: Env, m: map<string, Value>, st: State, b: Box)
    requires BoxAt(m) == Ok(b)
    ensures var lines := SubprocessLines(b);
      var st1 := Emit(st, SvgRect(b.x, b.y, b.w, b.h, None, st.scopes));
      SubprocessShape(env, m, NoOpts, st) ==
        (var st2 :- AddPath(env, st1, AsLists(lines.0), false, NoOpts); AddPath(env, st2, AsLists(lines.1), false, NoOpts))
  {
  }

  /** An element followed by two plain open paths. */
  lemma OpenPathsAfter(env: Env, st: State, el: Svg, l0: seq<Point>, l1: seq<Point>)
    requires l0 != [] && l1 != []
    ensures var st1 := Emit(st, el);
      (var st2 :- AddPath(env, st1, AsLists(l0), false, NoOpts); AddPath(env, st2, AsLists(l1), false, NoOpts))
      == Ok(st.(layer := st.layer + [el, PlainPath(env, l0, false, st.scopes), PlainPath(env, l1, false, st.scopes)]))
  {
    var p0 := PlainPath(env, l0, false, st.scopes);
    var p1 := PlainPath(env, l1, false, st.scopes);
    var st1 := Emit(st, el);
    var st2 := Emit(st1, p0);
    PlainAddPath(env, st1, l0, false);
    PlainAddPath(env, st2, l1, false);
    assert st.layer + [el] + [p0] + [p1] == st.layer + [el, p0, p1];
  }


  /** The Shape name picks the emitter. A rectangle or a rounded one is a
      RectShape over the bounds, and a cloud a plain rect over its box ... */
  lemma RectDispatch(env: Env, images: Value, m: map<string, Value>, st: State)
    requires "Shape" in m && OptsOf(m).Ok?
    ensures m["Shape"] in {Txt("Rectangle"), Txt("RoundRect")} ==>
      ShapedStep(env, images, m, st) == (var c :- BoundsAt(m); RectShape(images, m, c, st))
    ensures m["Shape"] == Txt("Cloud") ==>
      ShapedStep(env, images, m, st) == (var b :- BoxAt(m); Ok(Emit(st, SvgRect(b.x, b.y, b.w, b.h, None, st.scopes))))
  {
    var shape := m["Shape"];
    assert Lookup(m, "Shape") == Ok(shape);
    if shape == Txt("RoundRect") {
    } else if shape == Txt("Cloud") {
      assert shape != Txt("Rectangle") && shape != Txt("RoundRect") && shape != Txt("HorizontalTriangle");
      assert shape != Txt("RightTriangle") && shape != Txt("VerticalTriangle") && shape != Txt("Circle");
      assert shape != Txt("Bezier") && shape != Txt("AdjustableArrow") && shape != Txt("Diamond");
      assert shape != Txt("Subprocess");
    }
  }

  /** ... each polygon is its own PolygonShape ... */
  lemma PolygonDispatch(env: Env, images: Value, m: map<string, Value>, st: State, opts: Opts)
    requires "Shape" in m && OptsOf(m) == Ok(opts)
    ensures m["Shape"] == Txt("HorizontalTriangle") ==>
      ShapedStep(env, images, m, st) == PolygonShape(env, "HorizontalTriangle", m, opts, st)
    ensures m["Shape"] == Txt("RightTriangle") ==>
      ShapedStep(env, images, m, st) == PolygonShape(env, "RightTriangle", m, opts, st)
    ensures m["Shape"] == Txt("VerticalTriangle") ==>
      ShapedStep(env, images, m, st) == PolygonShape(env, "VerticalTriangle", m, opts, st)
    ensures m["Shape"] == Txt("Diamond") ==>
      ShapedStep(env, images, m, st) == PolygonShape(env, "Diamond", m, opts, st)
  {
    var shape := m["Shape"];
    assert Lookup(m, "Shape") == Ok(shape);
    if shape == Txt("HorizontalTriangle") {
      assert shape != Txt("Rectangle") && shape != Txt("RoundRect");
    } else if shape == Txt("RightTriangle") {
      assert shape != Txt("Rectangle") && shape != Txt("RoundRect") && shape != Txt("HorizontalTriangle");
    } else if shape == Txt("VerticalTriangle") {
      assert shape != Txt("Rectangle") && shape != Txt("RoundRect") && shape != Txt("HorizontalTriangle");
      assert shape != Txt("RightTriangle");
    } else if shape == Txt("Diamond") {
      assert shape != Txt("Rectangle") && shape != Txt("RoundRect") && shape != Txt("HorizontalTriangle");
      assert shape != Txt("RightTriangle") && shape != Txt("VerticalTriangle") && shape != Txt("Circle");
      assert shape != Txt("Bezier") && shape != Txt("AdjustableArrow");
    }
  }

  /** ... and the circle, the bezier, the arrow and the subprocess are
      drawn by their own shapes. */
  lemma CurveDispatch(env: Env, images: Value, m: map<string, Value>, st: State, opts: Opts)
    requires "Shape" in m && OptsOf(m) == Ok(opts)
    ensures m["Shape"] == Txt("Circle") ==> ShapedStep(env, images, m, st) == CircleShape(m, st)
    ensures m["Shape"] == Txt("Bezier") ==> ShapedStep(env, images, m, st) == BezierShape(env, m, opts, st)
    ensures m["Shape"] == Txt("AdjustableArrow") ==> ShapedStep(env, images, m, st) == ArrowShape(env, m, opts, st)
    ensures m["Shape"] == Txt("Subprocess") ==> ShapedStep(env, images, m, st) == SubprocessShape(env, m, opts, st)
  {
    var shape := m["Shape"];
    assert Lookup(m, "Shape") == Ok(shape);
    if shape == Txt("Circle") {
      assert shape != Txt("Rectangle") && shape != Txt("RoundRect") && shape != Txt("HorizontalTriangle");
      assert shape != Txt("RightTriangle") && shape != Txt("VerticalTriangle");
    } else if shape == Txt("Bezier") {
      assert shape != Txt("Rectangle") && shape != Txt("RoundRect") && shape != Txt("HorizontalTriangle");
      assert shape != Txt("RightTriangle") && shape != Txt("VerticalTriangle") && shape != Txt("Circle");
    } else if shape == Txt("AdjustableArrow") {
      assert shape != Txt("Rectangle") && shape != Txt("RoundRect") && shape != Txt("HorizontalTriangle");
      assert shape != Txt("RightTriangle") && shape != Txt("VerticalTriangle") && shape != Txt("Circle");
      assert shape != Txt("Bezier");
    } else if shape == Txt("Subprocess") {
      assert shape != Txt("Rectangle") && shape != Txt("RoundRect") && shape != Txt("HorizontalTriangle");
      assert shape != Txt("RightTriangle") && shape != Txt("VerticalTriangle") && shape != Txt("Circle");
      assert shape != Txt("Bezier") && shape != Txt("AdjustableArrow") && shape != Txt("Diamond");
    }
  }

  /** The image index is checked only against the end of the list: an id
      past the end draws nothing ... */
  lemma ImagePastEnd(a: seq<Value>, iv: Value, id: int, coords: seq<real>, st: State)
    requires Int(iv) == Ok(id) && id >= |a|
    ensures ImageStep(Array(a), iv, coords, st) == Ok(st)
  {
  }

  /** An id within the list draws that image over the bounds ... */
  lemma ImageInRange(a: seq<Value>, iv: Value, id: int, x: real, y: real, w: real, h: real, st: State)
    requires Int(iv) == Ok(id) && 0 <= id < |a|
    ensures ImageStep(Array(a), iv, [x, y, w, h], st) == Ok(Emit(st, SvgImage(x, y, w, h, a[id], st.scopes)))
  {
    assert Len(Array(a)) == Ok(|a|) && Item(Array(a), id) == Ok(a[id]);
    assert Unpack([x, y, w, h]) == Ok(Box(x, y, w, h));
  }

  /** ... while a negative id silently picks an image from the end. */
  lemma ImageFromEnd(a: seq<Value>, iv: Value, id: int, x: real, y: real, w: real, h: real, st: State)
    requires Int(iv) == Ok(id) && -|a| <= id < 0
    ensures ImageStep(Array(a), iv, [x, y, w, h], st) == Ok(Emit(st, SvgImage(x, y, w, h, a[|a| + id], st.scopes)))
  {
  }

  /** From version 6 on, the BackgroundGraphic is drawn first, beneath
      everything in the GraphicsList. */
  lemma BackgroundFirst(env: Env, info: FileInfo, images: Value, m: map<string, Value>, st: State)
    requires info.version >= 6.0 && "BackgroundGraphic" in m
    requires ExtractPage(env, info, images, Dict(m), st).Ok?
    ensures var v := Visit(env, images, m["BackgroundGraphic"], st);
      v.Ok? && v.value.layer <= ExtractPage(env, info, images, Dict(m), st).value.layer
  {
    var bg := m["BackgroundGraphic"];
    assert [bg][1..] == [];
  }

  /** A CanvasColor draws one rect at CanvasOrigin, as wide as the paper
      less the left and right margins and as high as the paper less the
      top and bottom margins. */
  lemma CanvasRect(info: FileInfo, m: map<string, Value>, st: State, x: real, y: real)
    requires "CanvasColor" in m
    requires CoordsOf(FindOr(m, "CanvasOrigin", Txt(DefaultOrigin))) == Ok([x, y])
    ensures var p := info.printInfo;
      CanvasStep(info, Dict(m), st) ==
        Ok(Emit(st, SvgRect(x, y, p.paperWidth - p.left - p.right, p.paperHeight - p.bottom - p.top, None, st.scopes)))
  {
    assert Find(m, "CanvasColor").Some?;
  }

  /** Before version 6 the canvas rect is drawn first, beneath everything
      in the GraphicsList. */
  lemma CanvasFirst(env: Env, info: FileInfo, images: Value, m: map<string, Value>, st: State, x: real, y: real)
    requires info.version < 6.0 && "CanvasColor" in m
    requires CoordsOf(FindOr(m, "CanvasOrigin", Txt(DefaultOrigin))) == Ok([x, y])
    requires ExtractPage(env, info, images, Dict(m), st).Ok?
    ensures var p := info.printInfo;
      var r := ExtractPage(env, info, images, Dict(m), st).value;
      |r.layer| > |st.layer| &&
      r.layer[|st.layer|] == SvgRect(x, y, p.paperWidth - p.left - p.right, p.paperHeight - p.bottom - p.top, None, st.scopes)
  {
    var p := info.printInfo;
    var rect := SvgRect(x, y, p.paperWidth - p.left - p.right, p.paperHeight - p.bottom - p.top, None, st.scopes);
    var c := Emit(st, rect);
    CanvasRect(info, m, st, x, y);
    var gl := Index(Dict(m), "GraphicsList").value;
    assert ExtractPage(env, info, images, Dict(m), st) == WalkList(env, images, gl, c);
    assert c.layer[|st.layer|] == rect;
  }
}
