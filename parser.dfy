/** The GraffleParser object. Its fields are the state the conversion
    changes in place: the style scope stack, required_defs,
    svg_current_font, the children of svg_current_layer and of svg_def,
    imagelist and fileinfo. Each method is proved to leave the fields as the
    function of the walk that specifies it says, or to fail with the same
    error. */
module Parser {
  import opened Base
  import opened Strings
  import opened Plist
  import opened Coords
  import opened Geometry
  import opened Styles
  import opened Render

  class GraffleParser {
    /** The collaborators the parser calls. */
    const env: Env
    /** self.style: the scopes of the cascading style, innermost last. */
    var style: seq<Scope>
    var requiredDefs: set<string>
    var currentFont: string
    /** The children of svg_current_layer. */
    var layer: seq<Svg>
    /** The definition blocks appended to svg_def, by identifier. */
    var defs: seq<string>
    var imagelist: Value
    var fileinfo: Option<FileInfo>

    function Snapshot(): State
      reads this
    {
      State(style, requiredDefs, currentFont, layer)
    }

    function DocSnapshot(): DocState
      reads this
    {
      DocState(Snapshot(), imagelist, fileinfo)
    }

    /** The fields are what `r` describes when it succeeds; otherwise the
        method failed with the error `r` gives. */
    predicate Agrees(err: Option<Fault>, r: Result<State>)
      reads this
    {
      match r
      case Ok(s) => err.None? && Snapshot() == s
      case Err(f) => err == Some(f)
    }

    predicate AgreesDoc(err: Option<Fault>, r: Result<DocState>)
      reads this
    {
      match r
      case Ok(s) => err.None? && DocSnapshot() == s
      case Err(f) => err == Some(f)
    }

    /** __init__: one scope with a white fill and a black stroke, nothing
        drawn, nothing required. */
    constructor(env: Env)
      ensures this.env == env
      ensures DocSnapshot() == Initial && defs == []
    {
      this.env := env;
      style := InitialScopes;
      requiredDefs := {};
      currentFont := "";
      layer := [];
      defs := [];
      imagelist := Array([]);
      fileinfo := None;
    }

    // ----- the emitters -----

    /** svg_addRect. */
    method AddRect(x: real, y: real, width: real, height: real, corner: Option<Value>)
      modifies this`layer
      ensures layer == old(layer) + [SvgRect(x, y, width, height, corner, style)]
    {
      layer := layer + [SvgRect(x, y, width, height, corner, style)];
    }

    /** svg_addEllipse. */
    method AddEllipse(b: Box)
      modifies this`layer
      ensures var e := Ellipse(b); layer == old(layer) + [SvgEllipse(e.0.x, e.0.y, e.1, e.2, style)]
    {
      var c := [b.x + b.w / 2.0, b.y + b.h / 2.0];
      var rx := b.w / 2.0;
      var ry := b.h / 2.0;
      layer := layer + [SvgEllipse(c[0], c[1], rx, ry, style)];
    }

    /** svg_addImage. */
    method AddImage(b: Box, href: Value)
      modifies this`layer
      ensures layer == old(layer) + [SvgImage(b.x, b.y, b.w, b.h, href, style)]
    {
      layer := layer + [SvgImage(b.x, b.y, b.w, b.h, href, style)];
    }

    /** svg_addPath (and the same steps in svg_addBezier): flips, rotation,
        the point texts, the moveto and the linetos, and " z" when closed. */
    method AddPath(pts: seq<seq<real>>, close: bool, opts: Opts) returns (err: Option<Fault>)
      modifies this`layer
      ensures Agrees(err, Render.AddPath(env, old(Snapshot()), pts, close, opts))
    {
      var mypts := pts;
      if opts.hflip {
        mypts := env.hflip(mypts);
      }
      if opts.vflip {
        mypts := env.vflip(mypts);
      }
      if opts.rotation.Some? {
        mypts := env.rotate(mypts, opts.rotation.value);
      }
      var ptStrings := CoordsTexts(env.show, mypts);
      if ptStrings == [] {
        return Some(IndexError);
      }
      var lineString := "M " + ptStrings[0] + Join(LineTos(ptStrings[1..]), " ");
      if close {
        lineString := lineString + " z";
      } else {
        assert lineString + "" == lineString;
      }
      assert mypts == Transform(env, opts, pts);
      layer := layer + [SvgPath(lineString, style)];
      err := None;
    }

    /** svg_addText: the text element, with one line per span of the RTF
        text, each 12 units below the one before. */
    method AddText(x: real, y: real, spans: seq<Span>)
      modifies this`layer
      ensures layer == old(layer) + [SvgText(x, y, style, currentFont, Lines(x, y, spans))]
    {
      var tspans: seq<TSpan> := [];
      var i := 0;
      while i < |spans|
        invariant 0 <= i <= |spans|
        invariant tspans == Lines(x, y, spans[..i])
      {
        assert spans[..i + 1][..i] == spans[..i];
        tspans := tspans + [Line(x, y, i, spans[i])];
        i := i + 1;
      }
      assert spans[..i] == spans;
      layer := layer + [SvgText(x, y, style, currentFont, tspans)];
    }

    // ----- svgAddGraffleShapedGraphic -----

    /** extractBoundCOordinates(graphic["Bounds"]). */
    method BoundsFrom(m: map<string, Value>) returns (r: Result<seq<real>>)
      ensures r == BoundsAt(m)
    {
      if "Bounds" !in m {
        return Err(KeyError("Bounds"));
      }
      match m["Bounds"]
      case Str(s) => r := ExtractBoundCoordinates(s);
      case Array(_) => r := Err(AttributeError);
      case _ => r := Err(TypeError);
    }

    /** The ImageID branch of a rect. */
    method AddImageRef(iv: Value, coords: seq<real>) returns (err: Option<Fault>)
      modifies this`layer
      ensures Agrees(err, ImageStep(imagelist, iv, coords, old(Snapshot())))
    {
      var id := Int(iv);
      if id.Err? {
        return Some(id.fault);
      }
      var n := Len(imagelist);
      if n.Err? {
        return Some(n.fault);
      }
      if n.value <= id.value {
        return None;
      }
      var image := Item(imagelist, id.value);
      if image.Err? {
        return Some(image.fault);
      }
      var b := Unpack(coords);
      if b.Err? {
        return Some(b.fault);
      }
      AddImage(b.value, image.value);
      err := None;
    }

    /** Rectangle and RoundRect. */
    method AddRectangle(m: map<string, Value>, coords: seq<real>) returns (err: Option<Fault>)
      modifies this`layer
      ensures Agrees(err, RectShape(imagelist, m, coords, old(Snapshot())))
    {
      if "ImageID" in m {
        err := AddImageRef(m["ImageID"], coords);
        return;
      }
      var sty := FindOr(m, "Style", Dict(map[]));
      if !sty.Dict? {
        return Some(AttributeError);
      }
      var stroke := FindOr(sty.entries, "stroke", Dict(map[]));
      if !stroke.Dict? {
        return Some(AttributeError);
      }
      var radius := Find(stroke.entries, "CornerRadius");
      var b := FirstFour(coords);
      if b.Err? {
        return Some(b.fault);
      }
      AddRect(b.value.x, b.value.y, b.value.w, b.value.h, radius);
      err := None;
    }

    /** The two triangles, the vertical triangle and the diamond. */
    method AddPolygon(shape: string, m: map<string, Value>, opts: Opts) returns (err: Option<Fault>)
      requires shape in {"HorizontalTriangle", "RightTriangle", "VerticalTriangle", "Diamond"}
      modifies this`layer
      ensures Agrees(err, PolygonShape(env, shape, m, opts, old(Snapshot())))
    {
      var bounds := BoundsFrom(m);
      if bounds.Err? {
        return Some(bounds.fault);
      }
      var b := Unpack(bounds.value);
      if b.Err? {
        return Some(b.fault);
      }
      var pts :=
        if shape == "HorizontalTriangle" then HorizontalTriangle(b.value)
        else if shape == "RightTriangle" then RightTriangle(b.value)
        else if shape == "VerticalTriangle" then VerticalTriangle(b.value)
        else Diamond(b.value);
      err := AddPath(AsLists(pts), true, opts);
    }

    /** Circle. */
    method AddCircle(m: map<string, Value>) returns (err: Option<Fault>)
      modifies this`layer
      ensures Agrees(err, CircleShape(m, old(Snapshot())))
    {
      var bounds := BoundsFrom(m);
      if bounds.Err? {
        return Some(bounds.fault);
      }
      var b := FirstFour(bounds.value);
      if b.Err? {
        return Some(b.fault);
      }
      ghost var st := old(Snapshot());
      assert CircleShape(m, st) == Ok(Emit(st, SvgEllipse(Ellipse(b.value).0.x, Ellipse(b.value).0.y, Ellipse(b.value).1, Ellipse(b.value).2, st.scopes)));
      AddEllipse(b.value);
      err := None;
    }

    /** svg_addBezier. */
    method AddBezier(m: map<string, Value>, opts: Opts) returns (err: Option<Fault>)
      modifies this`layer
      ensures Agrees(err, BezierShape(env, m, opts, old(Snapshot())))
    {
      var bounds := BoundsFrom(m);
      if bounds.Err? {
        return Some(bounds.fault);
      }
      if "ShapeData" !in m {
        return Some(KeyError("ShapeData"));
      }
      var ups := Index(m["ShapeData"], "UnitPoints");
      if ups.Err? {
        return Some(ups.fault);
      }
      var items := Items(ups.value);
      if items.Err? {
        return Some(items.fault);
      }
      var units := BoundsEach(items.value);
      if units.Err? {
        return Some(units.fault);
      }
      var b := FirstFour(bounds.value);
      if b.Err? {
        return Some(b.fault);
      }
      var pts := UnitPointsIn(b.value, units.value);
      if pts.Err? {
        return Some(pts.fault);
      }
      err := AddPath(pts.value, false, opts);
    }

    /** svg_addAdjustableArrow. */
    method AddArrow(m: map<string, Value>, opts: Opts) returns (err: Option<Fault>)
      modifies this`layer
      ensures Agrees(err, ArrowShape(env, m, opts, old(Snapshot())))
    {
      var b := BoxAt(m);
      if b.Err? {
        return Some(b.fault);
      }
      if "ShapeData" !in m {
        return Some(KeyError("ShapeData"));
      }
      var rv := Index(m["ShapeData"], "ratio");
      if rv.Err? {
        return Some(rv.fault);
      }
      var ratio := Float(rv.value);
      if ratio.Err? {
        return Some(ratio.fault);
      }
      var wv := Index(m["ShapeData"], "width");
      if wv.Err? {
        return Some(wv.fault);
      }
      var neck := Float(wv.value);
      if neck.Err? {
        return Some(neck.fault);
      }
      err := AddPath(AsLists(Arrow(b.value, ratio.value, neck.value)), true, opts);
    }

    /** svg_addSubprocess. */
    method AddSubprocess(m: map<string, Value>, opts: Opts) returns (err: Option<Fault>)
      modifies this`layer
      ensures Agrees(err, SubprocessShape(env, m, opts, old(Snapshot())))
    {
      var b := BoxAt(m);
      if b.Err? {
        return Some(b.fault);
      }
      AddRect(b.value.x, b.value.y, b.value.w, b.value.h, None);
      var lines := SubprocessLines(b.value);
      err := AddPath(AsLists(lines.0), false, opts);
      if err.Some? {
        return;
      }
      err := AddPath(AsLists(lines.1), false, opts);
    }

    /** svgAddGraffleShapedGraphic. */
    method AddShapedGraphic(m: map<string, Value>) returns (err: Option<Fault>)
      modifies this`layer
      ensures Agrees(err, ShapedStep(env, imagelist, m, old(Snapshot())))
    {
      var shape := Lookup(m, "Shape");
      if shape.Err? {
        return Some(shape.fault);
      }
      var opts := OptsOf(m);
      if opts.Err? {
        return Some(opts.fault);
      }
      var s := shape.value;
      if s == Txt("Rectangle") || s == Txt("RoundRect") {
        var coords := BoundsFrom(m);
        if coords.Err? {
          return Some(coords.fault);
        }
        err := AddRectangle(m, coords.value);
      } else if s == Txt("HorizontalTriangle") {
        err := AddPolygon("HorizontalTriangle", m, opts.value);
      } else if s == Txt("RightTriangle") {
        err := AddPolygon("RightTriangle", m, opts.value);
      } else if s == Txt("VerticalTriangle") {
        err := AddPolygon("VerticalTriangle", m, opts.value);
      } else if s == Txt("Circle") {
        err := AddCircle(m);
      } else if s == Txt("Bezier") {
        err := AddBezier(m, opts.value);
      } else if s == Txt("AdjustableArrow") {
        err := AddArrow(m, opts.value);
      } else if s == Txt("Diamond") {
        err := AddPolygon("Diamond", m, opts.value);
      } else if s == Txt("Subprocess") {
        err := AddSubprocess(m, opts.value);
      } else if s == Txt("Cloud") {
        var b := BoxAt(m);
        if b.Err? {
          return Some(b.fault);
        }
        AddRect(b.value.x, b.value.y, b.value.w, b.value.h, None);
        err := None;
      } else {
        err := None;
      }
    }

    // ----- styling -----

    /** svgSetGraffleStyle: the innermost scope and required_defs are
        rewritten by the style step. */
    method SetGraffleStyle(s: Value) returns (err: Option<Fault>)
      requires |style| > 0
      modifies this`style, this`requiredDefs
      ensures Agrees(err, StyleAt(env.fmt, s, old(Snapshot())))
    {
      var n := |style|;
      var e := StyleStep(env.fmt, s, Effect(style[n - 1], requiredDefs));
      if e.Err? {
        return Some(e.fault);
      }
      style := style[..n - 1] + [e.value.scope];
      requiredDefs := e.value.defs;
      err := None;
    }

    /** svgSetGraffleFont: no FontInfo leaves the current font; otherwise
        the colour, family and size declarations, each only when given, are
        collected and joined with ";". */
    method SetGraffleFont(font: Option<Value>) returns (err: Option<Fault>)
      modifies this`currentFont
      ensures var r := FontStep(font, old(currentFont));
        (r.Ok? ==> err.None? && currentFont == r.value) && (r.Err? ==> err == Some(r.fault))
    {
      if font.None? {
        return None;
      }
      if !font.value.Dict? {
        return Some(AttributeError);
      }
      var m := font.value.entries;
      var fontstuffs: seq<string> := [];
      ghost var p1: seq<string> := [];
      ghost var p2: seq<string> := [];
      ghost var p3: seq<string> := [];
      if "Color" in m {
        fontstuffs := fontstuffs + [FontColour(m["Color"])];
        p1 := [FontColour(m["Color"])];
      }
      assert fontstuffs == p1;
      if "Font" in m {
        var t := FamilyPart(m["Font"]);
        if t.Err? {
          return Some(t.fault);
        }
        fontstuffs := fontstuffs + [t.value];
        p2 := [t.value];
      }
      assert fontstuffs == p1 + p2;
      if "Size" in m {
        var t := SizePart(m["Size"]);
        if t.Err? {
          return Some(t.fault);
        }
        fontstuffs := fontstuffs + [t.value];
        p3 := [t.value];
      }
      assert fontstuffs == p1 + p2 + p3;
      assert FontParts(font.value) == Ok(fontstuffs);
      currentFont := Join(fontstuffs, ";");
      err := None;
    }

    // ----- svgItterateGraffleGraphics -----

    /** The LineGraphic branch. */
    method AddLineGraphic(m: map<string, Value>) returns (err: Option<Fault>)
      requires |style| > 0
      modifies this`style, this`layer
      ensures Agrees(err, LineStep(env, m, old(Snapshot())))
    {
      if "Points" !in m {
        return Some(KeyError("Points"));
      }
      var items := Items(m["Points"]);
      if items.Err? {
        return Some(items.fault);
      }
      var pts := CoordsEach(items.value);
      if pts.Err? {
        return Some(pts.fault);
      }
      var n := |style|;
      style := style[..n - 1] + [style[n - 1]["fill" := "none"]];
      var bar := BarPosition(m);
      if bar.Err? {
        return Some(bar.fault);
      }
      err := AddPath(pts.value, false, NoOpts);
    }

    /** The Text part of a graphic: the font, then the text element. */
    method DrawText(m: map<string, Value>, t: Value) returns (err: Option<Fault>)
      modifies this`currentFont, this`layer
      ensures Agrees(err, TextStep(env, m, t, old(Snapshot())))
    {
      TextStepCases(env, m, t, Snapshot());
      var coords := BoundsFrom(m);
      if coords.Err? {
        return Some(coords.fault);
      }
      err := SetGraffleFont(Find(m, "FontInfo"));
      if err.Some? {
        return;
      }
      err := AddTextAt(coords.value, t);
    }

    /** The position of the text, its padding added, and the text element. */
    method AddTextAt(coords: seq<real>, t: Value) returns (err: Option<Fault>)
      modifies this`layer
      ensures Agrees(err, PlaceText(env, coords, t, old(Snapshot())))
    {
      var b := Unpack(coords);
      if b.Err? {
        return Some(b.fault);
      }
      if !t.Dict? {
        return Some(AttributeError);
      }
      var pad := Float(FindOr(t.entries, "Pad", Number(0)));
      if pad.Err? {
        return Some(pad.fault);
      }
      var vpad := Float(FindOr(t.entries, "VerticalPad", Number(0)));
      if vpad.Err? {
        return Some(vpad.fault);
      }
      var spans := env.rtf(FindOr(t.entries, "Text", Txt("")));
      if spans.Err? {
        return Some(spans.fault);
      }
      var x := b.value.x + pad.value;
      var y := b.value.y + vpad.value;
      AddText(x, y, spans.value);
      err := None;
    }

    /** One graphic of the loop: appendScope, the graphic, popScope. */
    method VisitGraphic(g: Value) returns (err: Option<Fault>)
      modifies this`style, this`requiredDefs, this`currentFont, this`layer
      ensures Agrees(err, Visit(env, imagelist, g, old(Snapshot())))
      decreases g, 5
    {
      style := style + [map[]];
      if !g.Dict? {
        return Some(AttributeError);
      }
      err := DrawGraphic(g);
      if err.Some? {
        return;
      }
      style := style[..|style| - 1];
    }

    /** Style, Class, then Text, in the graphic's own scope. */
    method DrawGraphic(g: Value) returns (err: Option<Fault>)
      requires g.Dict? && |style| > 0
      modifies this`style, this`requiredDefs, this`currentFont, this`layer
      ensures Agrees(err, Draw(env, imagelist, g, old(Snapshot())))
      decreases g, 4
    {
      var m := g.entries;
      if "Style" in m {
        err := SetGraffleStyle(m["Style"]);
        if err.Some? {
          return;
        }
      }
      var cls := Lookup(m, "Class");
      if cls.Err? {
        return Some(cls.fault);
      }
      err := DispatchClass(g, cls.value);
      if err.Some? {
        return;
      }
      if "Text" in m {
        err := DrawText(m, m["Text"]);
      }
    }

    /** The branch on Class. */
    method DispatchClass(g: Value, cls: Value) returns (err: Option<Fault>)
      requires g.Dict? && |style| > 0
      modifies this`style, this`requiredDefs, this`currentFont, this`layer
      ensures Agrees(err, Dispatch(env, imagelist, g, cls, old(Snapshot())))
      decreases g, 3
    {
      if cls == Txt("SolidGraphic") {
        var shallowcopy := map["Shape" := Txt("Rectangle")] + g.entries;
        err := AddShapedGraphic(shallowcopy);
      } else if cls == Txt("ShapedGraphic") {
        err := AddShapedGraphic(g.entries);
      } else if cls == Txt("LineGraphic") {
        err := AddLineGraphic(g.entries);
      } else if cls == Txt("TableGroup") || cls == Txt("Group") {
        err := AddGroup(g);
      } else {
        err := None;
      }
    }

    /** Group and TableGroup: a new scope and a new g element drawn into in
        place of the current layer, the sub-graphics in reverse, then the
        scope popped and the current layer restored. */
    method AddGroup(g: Value) returns (err: Option<Fault>)
      requires g.Dict? && |style| > 0
      modifies this`style, this`requiredDefs, this`currentFont, this`layer
      ensures Agrees(err, GroupStep(env, imagelist, g, old(Snapshot())))
      decreases g, 2
    {
      if "Graphics" !in g.entries {
        return None;
      }
      var sub := g.entries["Graphics"];
      var currentLayer := layer;
      style := style + [map[]];
      var groupStyle := style;
      layer := [];
      err := Iterate(sub, true);
      if err.Some? {
        return;
      }
      style := style[..|style| - 1];
      layer := currentLayer + [SvgGroup(groupStyle, layer)];
    }

    /** The reversed loop over the children of a group. */
    method IterateBack(sub: Value, a: seq<Value>) returns (err: Option<Fault>)
      requires sub == Array(a)
      modifies this`style, this`requiredDefs, this`currentFont, this`layer
      ensures Agrees(err, WalkRevFrom(env, imagelist, sub, |a|, old(Snapshot())))
      decreases sub, 0
    {
      var i := 0;
      while i < |a|
        invariant 0 <= i <= |a|
        invariant WalkRevFrom(env, imagelist, sub, |a|, old(Snapshot())) == WalkRevFrom(env, imagelist, sub, |a| - i, Snapshot())
      {
        err := VisitGraphic(a[|a| - 1 - i]);
        if err.Some? {
          return;
        }
        i := i + 1;
      }
      err := None;
    }

    /** The loop over the top-level graphics, in order. */
    method IterateForward(sub: Value, a: seq<Value>) returns (err: Option<Fault>)
      requires sub == Array(a)
      modifies this`style, this`requiredDefs, this`currentFont, this`layer
      ensures Agrees(err, WalkSeq(env, imagelist, a, old(Snapshot())))
      decreases sub, 0
    {
      var i := 0;
      while i < |a|
        invariant 0 <= i <= |a|
        invariant WalkSeq(env, imagelist, a, old(Snapshot())) == WalkSeq(env, imagelist, a[i..], Snapshot())
      {
        err := VisitGraphic(a[i]);
        if err.Some? {
          return;
        }
        i := i + 1;
      }
      err := None;
    }

    /** The loop over a list of graphics, reversed (the groups) or in
        order (the top level). */
    method Iterate(sub: Value, rev: bool) returns (err: Option<Fault>)
      modifies this`style, this`requiredDefs, this`currentFont, this`layer
      ensures Agrees(err, if rev then WalkReversed(env, imagelist, sub, old(Snapshot()))
                          else WalkList(env, imagelist, sub, old(Snapshot())))
      decreases sub, 1
    {
      match sub
      case Array(a) =>
        if rev {
          err := IterateBack(sub, a);
        } else {
          err := IterateForward(sub, a);
        }
      case Str(s) => err := if s == [] then None else Some(AttributeError);
      case Dict(m) => err := if rev then Some(TypeError) else if m == map[] then None else Some(AttributeError);
      case _ => err := Some(TypeError);
    }

    // ----- extractPage, walkGraffleDoc, walkGraffle -----

    /** The version 5 background: a rect for the CanvasColor. */
    method AddCanvas(page: Value) returns (err: Option<Fault>)
      requires fileinfo.Some?
      modifies this`layer
      ensures Agrees(err, CanvasStep(fileinfo.value, page, old(Snapshot())))
    {
      ghost var st0 := Snapshot();
      if !page.Dict? {
        return Some(AttributeError);
      }
      var m := page.entries;
      if "CanvasColor" !in m {
        return None;
      }
      var origin := CoordsOf(FindOr(m, "CanvasOrigin", Txt(DefaultOrigin)));
      if origin.Err? {
        return Some(origin.fault);
      }
      if |origin.value| != 2 {
        return Some(ValueError);
      }
      var x, y := origin.value[0], origin.value[1];
      var p := fileinfo.value.printInfo;
      var width := p.paperWidth - p.left - p.right;
      var height := p.paperHeight - p.bottom - p.top;
      assert CanvasStep(fileinfo.value, page, st0) == Ok(Emit(st0, SvgRect(x, y, width, height, None, st0.scopes)));
      AddRect(x, y, width, height, None);
      err := None;
    }

    /** extractPage. */
    method ExtractPage(page: Value) returns (err: Option<Fault>)
      requires fileinfo.Some?
      modifies this`style, this`requiredDefs, this`currentFont, this`layer
      ensures Agrees(err, Render.ExtractPage(env, fileinfo.value, imagelist, page, old(Snapshot())))
    {
      if fileinfo.value.version >= 6.0 {
        var background := Index(page, "BackgroundGraphic");
        if background.Err? {
          return Some(background.fault);
        }
        err := Iterate(Array([background.value]), false);
      } else {
        err := AddCanvas(page);
      }
      if err.Some? {
        return;
      }
      var graphics := Index(page, "GraphicsList");
      if graphics.Err? {
        return Some(graphics.fault);
      }
      err := Iterate(graphics.value, false);
    }

    /** walkGraffleDoc: the loop over the children, walking plist elements
        and keeping the last dict; then, when a dict was found, fileinfo,
        imagelist and the requested sheet. */
    method WalkGraffleDoc(nodes: seq<XmlNode>, page: int) returns (err: Option<Fault>)
      modifies this`style, this`requiredDefs, this`currentFont, this`layer, this`imagelist, this`fileinfo
      ensures AgreesDoc(err, DocWalk(env, nodes, page, old(DocSnapshot())))
      decreases nodes
    {
      var mydict: Option<Value> := None;
      var i := 0;
      while i < |nodes|
        invariant i <= |nodes|
        invariant DocWalk(env, nodes, page, old(DocSnapshot())) == DocFrom(env, nodes, i, mydict, page, DocSnapshot())
      {
        var e := nodes[i];
        if e.Element? && e.name == "plist" {
          err := WalkGraffleDoc(e.children, page);
          if err.Some? {
            return;
          }
        }
        if e.Element? && e.name == "dict" {
          var d := DecodeDict(e);
          if d.Err? {
            return Some(d.fault);
          }
          mydict := Some(d.value);
        }
        i := i + 1;
      }
      if mydict.None? {
        return None;
      }
      var d := mydict.value;
      if !d.Dict? {
        return Some(AttributeError);
      }
      fileinfo := Some(env.fileInfo(d));
      imagelist := FindOr(d.entries, "ImageList", Array([]));
      var sheet := d;
      if "Sheets" in d.entries {
        var s := Item(d.entries["Sheets"], page);
        if s.Err? {
          return Some(s.fault);
        }
        sheet := s.value;
      }
      err := ExtractPage(sheet);
    }

    /** svg_add_requirements: one block per registered definition, in the
        fixed order Arrow1Lend, Arrow1Lstart, DropShadow, CrowBall, Bar. */
    method AddRequirements()
      modifies this`defs
      ensures defs == old(defs) + Required(DefOrder, requiredDefs)
    {
      ghost var d0 := defs;
      if "Arrow1Lend" in requiredDefs {
        defs := defs + ["Arrow1Lend"];
      }
      ghost var d1 := defs;
      if "Arrow1Lstart" in requiredDefs {
        defs := defs + ["Arrow1Lstart"];
      }
      ghost var d2 := defs;
      if "DropShadow" in requiredDefs {
        defs := defs + ["DropShadow"];
      }
      ghost var d3 := defs;
      if "CrowBall" in requiredDefs {
        defs := defs + ["CrowBall"];
      }
      ghost var d4 := defs;
      if "Bar" in requiredDefs {
        defs := defs + ["Bar"];
      }
      BlocksAppendRequired(DefOrder, requiredDefs, [d0, d1, d2, d3, d4, defs]);
    }

    /** walkGraffle on a parsed document: the document walk, then the
        required definitions. */
    method WalkGraffle(doc: seq<XmlNode>, page: int) returns (err: Option<Fault>)
      modifies this
      ensures AgreesDoc(err, DocWalk(env, doc, page, old(DocSnapshot())))
      ensures err.None? ==> defs == old(defs) + Required(DefOrder, requiredDefs)
    {
      err := WalkGraffleDoc(doc, page);
      if err.None? {
        AddRequirements();
      }
    }
  }

  /** What one block of svg_add_requirements appends for definition d. */
  function Block(d: string, required: set<string>): (r: seq<string>)
    ensures r == [d] <==> d in required
    ensures r == [] <==> d !in required
  {
    if d in required then [d] else []
  }

  /** Blocks run in the order of `order`, ds[k] being the definitions
      before the block for order[k], append the registered definitions of
      `order` in that order. */
  lemma {:induction false} BlocksAppendRequired(order: seq<string>, required: set<string>, ds: seq<seq<string>>)
    requires |ds| == |order| + 1
    requires forall k :: 0 <= k < |order| ==> ds[k + 1] == ds[k] + Block(order[k], required)
    ensures ds[|order|] == ds[0] + Required(order, required)
  {
    if order == [] {
      assert ds[0] + [] == ds[0];
    } else {
      var rest := ds[1..];
      forall k | 0 <= k < |order[1..]|
        ensures rest[k + 1] == rest[k] + Block(order[1..][k], required)
      {
        assert rest[k + 1] == ds[k + 2] && rest[k] == ds[k + 1] && order[1..][k] == order[k + 1];
      }
      BlocksAppendRequired(order[1..], required, rest);
      assert ds[1] == ds[0] + Block(order[0], required);
    }
  }

  /** A fresh parser run over a document produces the document Convert
      describes. */
  method Run(env: Env, doc: seq<XmlNode>, page: int) returns (r: Result<Output>)
    ensures r == Convert(env, doc, page)
  {
    var parser := new GraffleParser(env);
    var err := parser.WalkGraffle(doc, page);
    assert parser.env == env;
    if err.Some? {
      assert DocWalk(env, doc, page, Initial) == Err(err.value);
      return Err(err.value);
    }
    ghost var ds := DocWalk(env, doc, page, Initial).value;
    assert parser.defs == [] + Required(DefOrder, ds.st.defs);
    assert [] + Required(DefOrder, ds.st.defs) == Required(DefOrder, ds.st.defs);
    assert parser.layer == ds.st.layer;
    r := Ok(Output(parser.defs, InitialScopes, parser.layer));
    assert r == Ok(Output(Required(DefOrder, ds.st.defs), InitialScopes, ds.st.layer));
  }
}
