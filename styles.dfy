/** Styling in GraffleParser: svgSetGraffleStyle, which writes CSS
    properties into the innermost scope of the cascading style and
    registers the marker and filter definitions they refer to;
    svgSetGraffleFont, which builds the font fragment of text elements; and
    the fixed order in which svg_add_requirements emits the registered
    definitions. */
module Styles {
  import opened Base
  import opened Strings
  import opened Plist
  import opened Colour

  /** One scope of the cascading style: CSS property name to value. */
  type Scope = map<string, string>

  /** What a style step acts on: the innermost scope and the set of
      required definitions. */
  datatype Effect = Effect(scope: Scope, defs: set<string>)

  /** e2 differs from e at most in the properties `keys` and by registering
      some of the definitions `names`. */
  ghost predicate Keeps(e: Effect, e2: Effect, keys: set<string>, names: set<string>)
  {
    (forall k :: k !in keys ==> (k in e.scope <==> k in e2.scope)) &&
    (forall k :: k !in keys && k in e.scope ==> e2.scope[k] == e.scope[k]) &&
    e.defs <= e2.defs <= e.defs + names
  }

  /** The property a definition is used by, and the reference to it written
      there (Arrow1Lend's with the leading colon the source writes). */
  function DefProp(d: string): string
  {
    if d == "Arrow1Lend" || d == "Bar" then "marker-end"
    else if d == "Arrow1Lstart" || d == "CrowBall" then "marker-start"
    else "filter"
  }

  function DefRef(d: string): string
  {
    if d == "Arrow1Lend" then ":url(#Arrow1Lend)"
    else if d == "Bar" then "url(#mBar)"
    else if d == "Arrow1Lstart" then "url(#Arrow1Lstart)"
    else if d == "CrowBall" then "url(#mCrowBall)"
    else "url(#DropShadow)"
  }

  /** Every definition registered between e and e2 is referenced in e2 by
      the property that uses it. */
  ghost predicate Referenced(e: Effect, e2: Effect)
  {
    forall d :: d in e2.defs && d !in e.defs ==> DefProp(d) in e2.scope && e2.scope[DefProp(d)] == DefRef(d)
  }

  /** Two steps in a row: the second may not overwrite a property the first
      registered a definition for. */
  lemma Compose(e: Effect, e1: Effect, e2: Effect, k1: set<string>, n1: set<string>, k2: set<string>, n2: set<string>)
    requires Keeps(e, e1, k1, n1) && Referenced(e, e1)
    requires Keeps(e1, e2, k2, n2) && Referenced(e1, e2)
    requires forall d :: d in n1 ==> DefProp(d) !in k2
    ensures Keeps(e, e2, k1 + k2, n1 + n2) && Referenced(e, e2)
  {
  }

  function Set(e: Effect, k: string, v: string): (r: Effect)
    ensures Keeps(e, r, {k}, {}) && Referenced(e, r) && k in r.scope && r.scope[k] == v
  {
    e.(scope := e.scope[k := v])
  }

  /** Set the property that uses definition d to the reference to it, and
      register d. */
  function Require(e: Effect, d: string): (r: Effect)
    ensures Keeps(e, r, {DefProp(d)}, {d}) && Referenced(e, r) && d in r.defs
  {
    Effect(e.scope[DefProp(d) := DefRef(d)], e.defs + {d})
  }

  /** d.get(k) on a dictionary. */
  function Find(m: map<string, Value>, k: string): (r: Option<Value>)
    ensures r.Some? <==> k in m
    ensures r.Some? ==> r.value == m[k]
  {
    if k in m then Some(m[k]) else None
  }

  /** d.get(k, dflt) on a dictionary. */
  function FindOr(m: map<string, Value>, k: string, dflt: Value): (r: Value)
    ensures k in m ==> r == m[k]
    ensures k !in m ==> r == dflt
  {
    if k in m then m[k] else dflt
  }

  /** A Python text literal, as a decoded value is compared with it. */
  function Txt(t: string): Value { Str(t) }

  // ----- svgSetGraffleStyle -----

  /** The fill part: Draws "NO" hides the fill, otherwise a given Color
      becomes "#rrggbb". */
  function FillStep(fill: Value, e: Effect): (r: Result<Effect>)
    ensures r.Ok? ==> Keeps(e, r.value, {"fill"}, {}) && Referenced(e, r.value)
    ensures !fill.Dict? ==> r == Err(AttributeError)
  {
    if !fill.Dict? then Err(AttributeError)
    else if FindOr(fill.entries, "Draws", Txt("")) == Txt("NO") then Ok(Set(e, "fill", "none"))
    else
      match Find(fill.entries, "Color")
      case None => Ok(e)
      case Some(col) =>
        var hex :- ExtractColour(col);
        Ok(Set(e, "fill", "#" + hex))
  }

  /** The stroke colour: Draws "NO" hides the stroke, otherwise the Color,
      black when there is none, becomes "#rrggbb". */
  function StrokeColourStep(m: map<string, Value>, e: Effect): (r: Result<Effect>)
    ensures r.Ok? ==> Keeps(e, r.value, {"stroke"}, {}) && Referenced(e, r.value)
  {
    if FindOr(m, "Draws", Txt("")) == Txt("NO") then Ok(Set(e, "stroke", "none"))
    else
      var hex :- ExtractColour(FindOr(m, "Color", Black));
      Ok(Set(e, "stroke", "#" + hex))
  }

  /** HeadArrow: FilledArrow and Bar set marker-end and register their
      definition, "0" sets marker-end to none; any other value changes
      nothing. */
  function HeadArrowStep(m: map<string, Value>, e: Effect): (r: Effect)
    ensures Keeps(e, r, {"marker-end"}, {"Arrow1Lend", "Bar"}) && Referenced(e, r)
  {
    match Find(m, "HeadArrow")
    case None => e
    case Some(h) =>
      if h == Txt("FilledArrow") then Require(e, "Arrow1Lend")
      else if h == Txt("Bar") then Require(e, "Bar")
      else if h == Txt("0") then Set(e, "marker-end", "none")
      else e
  }

  /** TailArrow: FilledArrow and CrowBall set marker-start and register
      their definition, "0" sets marker-start to none; any other value
      changes nothing. */
  function TailArrowStep(m: map<string, Value>, e: Effect): (r: Effect)
    ensures Keeps(e, r, {"marker-start"}, {"Arrow1Lstart", "CrowBall"}) && Referenced(e, r)
  {
    match Find(m, "TailArrow")
    case None => e
    case Some(t) =>
      if t == Txt("FilledArrow") then Require(e, "Arrow1Lstart")
      else if t == Txt("CrowBall") then Require(e, "CrowBall")
      else if t == Txt("0") then Set(e, "marker-start", "none")
      else e
  }

  /** Width: "%fpx" of float(width), with "%f" given as `fmt`. */
  function WidthStep(fmt: real -> string, m: map<string, Value>, e: Effect): (r: Result<Effect>)
    ensures r.Ok? ==> Keeps(e, r.value, {"stroke-width"}, {}) && Referenced(e, r.value)
  {
    match Find(m, "Width")
    case None => Ok(e)
    case Some(w) =>
      var x :- Float(w);
      Ok(Set(e, "stroke-width", fmt(x) + "px"))
  }

  /** `pattern == n` as written: a decoded <integer> is text, and text never
      equals a Python int. */
  predicate PatternAsWritten(v: Value, n: int)
    ensures PatternAsWritten(v, n) ==> !v.Str?
    ensures PatternAsWritten(v, n) ==> PatternIs(v, n)
  {
    EqualsInt(v, n)
  }

  /** The comparison evidently intended: the pattern read as an integer,
      int(pattern) == n. */
  predicate PatternIs(v: Value, n: int)
    ensures PatternIs(v, n) <==> Int(v) == Ok(n)
  {
    match v
    case Str(s) => ParseInt(s) == Ok(n)
    case _ => EqualsInt(v, n)
  }

  /** As written, the dash patterns Graffle writes (<integer>1</integer>,
      <integer>2</integer>) are never recognised; read as integers they
      are. */
  lemma PatternNeverMatches(n: int)
    ensures !PatternAsWritten(Str(IntText(n)), n)
    ensures PatternIs(Str(IntText(n)), n)
  {
    IntTextRoundTrip(n);
  }

  /** Pattern 1 gives "3 3" and pattern 2 gives "5 5"; any other value
      leaves stroke-dasharray as it was. */
  function PatternStep(m: map<string, Value>, e: Effect): (r: Effect)
    ensures Keeps(e, r, {"stroke-dasharray"}, {}) && Referenced(e, r)
  {
    match Find(m, "Pattern")
    case None => e
    case Some(p) =>
      if PatternIs(p, 1) then Set(e, "stroke-dasharray", "3 3")
      else if PatternIs(p, 2) then Set(e, "stroke-dasharray", "5 5")
      else e
  }

  const StrokeKeys: set<string> := {"stroke", "marker-end", "marker-start", "stroke-width", "stroke-dasharray"}
  const StrokeDefs: set<string> := {"Arrow1Lend", "Bar", "Arrow1Lstart", "CrowBall"}

  /** The stroke part: colour, arrows, width and pattern, in that order. */
  function StrokeStep(fmt: real -> string, stroke: Value, e: Effect): (r: Result<Effect>)
    ensures r.Ok? ==> Keeps(e, r.value, StrokeKeys, StrokeDefs) && Referenced(e, r.value)
    ensures !stroke.Dict? ==> r == Err(AttributeError)
  {
    if !stroke.Dict? then Err(AttributeError)
    else
      var m := stroke.entries;
      var e1 :- StrokeColourStep(m, e);
      var e2 := HeadArrowStep(m, e1);
      var e3 := TailArrowStep(m, e2);
      var e4 :- WidthStep(fmt, m, e3);
      var e5 := PatternStep(m, e4);
      StrokeCompose(e, e1, e2, e3, e4, e5);
      Ok(e5)
  }

  /** The four stroke steps in a row touch only the stroke properties and
      register only the arrow definitions, each referenced. */
  lemma StrokeCompose(e: Effect, e1: Effect, e2: Effect, e3: Effect, e4: Effect, e5: Effect)
    requires Keeps(e, e1, {"stroke"}, {}) && Referenced(e, e1)
    requires Keeps(e1, e2, {"marker-end"}, {"Arrow1Lend", "Bar"}) && Referenced(e1, e2)
    requires Keeps(e2, e3, {"marker-start"}, {"Arrow1Lstart", "CrowBall"}) && Referenced(e2, e3)
    requires Keeps(e3, e4, {"stroke-width"}, {}) && Referenced(e3, e4)
    requires Keeps(e4, e5, {"stroke-dasharray"}, {}) && Referenced(e4, e5)
    ensures Keeps(e, e5, StrokeKeys, StrokeDefs) && Referenced(e, e5)
  {
    var arrowKeys := {"stroke", "marker-end", "marker-start"};
    Compose(e, e1, e2, {"stroke"}, {}, {"marker-end"}, {"Arrow1Lend", "Bar"});
    assert {"stroke"} + {"marker-end"} == {"stroke", "marker-end"};
    assert {} + {"Arrow1Lend", "Bar"} == {"Arrow1Lend", "Bar"};
    Compose(e, e2, e3, {"stroke", "marker-end"}, {"Arrow1Lend", "Bar"}, {"marker-start"}, {"Arrow1Lstart", "CrowBall"});
    assert {"stroke", "marker-end"} + {"marker-start"} == arrowKeys;
    assert {"Arrow1Lend", "Bar"} + {"Arrow1Lstart", "CrowBall"} == StrokeDefs;
    WidthPatternCompose(e, e3, e4, e5, arrowKeys);
  }

  /** The width and pattern steps after the arrows touch only the width
      and the dash array. */
  lemma WidthPatternCompose(e: Effect, e3: Effect, e4: Effect, e5: Effect, keys: set<string>)
    requires keys == {"stroke", "marker-end", "marker-start"}
    requires Keeps(e, e3, keys, StrokeDefs) && Referenced(e, e3)
    requires Keeps(e3, e4, {"stroke-width"}, {}) && Referenced(e3, e4)
    requires Keeps(e4, e5, {"stroke-dasharray"}, {}) && Referenced(e4, e5)
    ensures Keeps(e, e5, StrokeKeys, StrokeDefs) && Referenced(e, e5)
  {
    Compose(e, e3, e4, keys, StrokeDefs, {"stroke-width"}, {});
    assert keys + {"stroke-width"} == {"stroke", "marker-end", "marker-start", "stroke-width"};
    assert StrokeDefs + {} == StrokeDefs;
    Compose(e, e4, e5, {"stroke", "marker-end", "marker-start", "stroke-width"}, StrokeDefs, {"stroke-dasharray"}, {});
    assert {"stroke", "marker-end", "marker-start", "stroke-width"} + {"stroke-dasharray"} == StrokeKeys;
  }

  /** The shadow: registered, with the filter set, only when the style has
      a shadow whose Draws is present and not "NO". */
  function ShadowStep(m: map<string, Value>, e: Effect): (r: Result<Effect>)
    ensures r.Ok? ==> Keeps(e, r.value, {"filter"}, {"DropShadow"}) && Referenced(e, r.value)
  {
    var sh := FindOr(m, "shadow", Dict(map[]));
    if !sh.Dict? then Err(AttributeError)
    else if FindOr(sh.entries, "Draws", Txt("NO")) != Txt("NO") then Ok(Require(e, "DropShadow"))
    else Ok(e)
  }

  const StyleKeys: set<string> := {"fill", "filter"} + StrokeKeys

  /** svgSetGraffleStyle: fill, then stroke, then shadow. It changes only
      the style properties, registers only known definitions, and every
      definition it registers is referenced by the property that uses it. */
  function StyleStep(fmt: real -> string, style: Value, e: Effect): (r: Result<Effect>)
    ensures r.Ok? ==> Keeps(e, r.value, StyleKeys, DefNames) && Referenced(e, r.value)
    ensures !style.Dict? ==> r == Err(AttributeError)
  {
    if !style.Dict? then Err(AttributeError)
    else
      var m := style.entries;
      var e1 :- match Find(m, "fill") case None => Ok(e) case Some(f) => FillStep(f, e);
      var e2 :- match Find(m, "stroke") case None => Ok(e1) case Some(s) => StrokeStep(fmt, s, e1);
      var e3 :- ShadowStep(m, e2);
      Compose(e, e1, e2, {"fill"}, {}, StrokeKeys, StrokeDefs);
      Compose(e, e2, e3, {"fill"} + StrokeKeys, StrokeDefs, {"filter"}, {"DropShadow"});
      Ok(e3)
  }

  // ----- what the style step promises -----

  /** Draws "NO" on the fill gives "none", whatever the rest of the style. */
  lemma FillHidden(fmt: real -> string, m: map<string, Value>, f: map<string, Value>, e: Effect)
    requires "fill" in m && m["fill"] == Dict(f) && "Draws" in f && f["Draws"] == Txt("NO")
    requires StyleStep(fmt, Dict(m), e).Ok?
    ensures StyleStep(fmt, Dict(m), e).value.scope["fill"] == "none"
  {
    var e1 := FillStep(Dict(f), e).value;
    assert e1.scope["fill"] == "none";
  }

  /** Draws "NO" on the stroke gives "none": the arrow, width, pattern and
      shadow steps after it leave the stroke property alone. */
  lemma StrokeHidden(fmt: real -> string, m: map<string, Value>, k: map<string, Value>, e: Effect)
    requires "stroke" in m && m["stroke"] == Dict(k) && "Draws" in k && k["Draws"] == Txt("NO")
    requires StyleStep(fmt, Dict(m), e).Ok?
    ensures StyleStep(fmt, Dict(m), e).value.scope["stroke"] == "none"
  {
    var e0 := match Find(m, "fill") case None => e case Some(f) => FillStep(f, e).value;
    var e1 := Set(e0, "stroke", "none");
    assert StrokeColourStep(k, e0) == Ok(e1);
    var e2 := HeadArrowStep(k, e1);
    var e3 := TailArrowStep(k, e2);
    var e4 := WidthStep(fmt, k, e3).value;
    var e5 := PatternStep(k, e4);
    assert StrokeStep(fmt, Dict(k), e0) == Ok(e5);
    assert e5.scope["stroke"] == "none";
  }

  /** A stroke without a Color, not hidden, is black. */
  lemma StrokeDefaultsToBlack(m: map<string, Value>, e: Effect)
    requires "Color" !in m
    requires "Draws" !in m || m["Draws"] != Txt("NO")
    ensures StrokeColourStep(m, e) == Ok(Set(e, "stroke", "#000000"))
  {
    BlackIsZeros();
    assert FindOr(m, "Draws", Txt("")) != Txt("NO");
    assert FindOr(m, "Color", Black) == Black;
    assert "#" + "000000" == "#000000";
  }

  /** A style without a shadow entry, or whose shadow has no Draws, adds no
      drop shadow and no filter. */
  lemma NoShadowByDefault(m: map<string, Value>, e: Effect)
    requires "shadow" !in m || (m["shadow"].Dict? && "Draws" !in m["shadow"].entries)
    ensures ShadowStep(m, e) == Ok(e)
  {
  }

  /** A shadow whose Draws is anything but "NO" registers DropShadow and
      sets the filter to it. */
  lemma ShadowDraws(m: map<string, Value>, e: Effect)
    requires "shadow" in m && m["shadow"].Dict?
    requires "Draws" in m["shadow"].entries && m["shadow"].entries["Draws"] != Txt("NO")
    ensures var r := ShadowStep(m, e);
      r.Ok? && "DropShadow" in r.value.defs && r.value.scope["filter"] == "url(#DropShadow)"
  {
  }

  /** HeadArrow FilledArrow points marker-end at Arrow1Lend (with the
      leading colon the code writes) and registers it; Bar points it at mBar
      and registers Bar; "0" turns the end marker off and registers nothing;
      any other value, or none, changes nothing. */
  lemma HeadArrowCases(m: map<string, Value>, e: Effect)
    ensures FindOr(m, "HeadArrow", Txt("")) == Txt("FilledArrow") ==>
      HeadArrowStep(m, e) == Effect(e.scope["marker-end" := ":url(#Arrow1Lend)"], e.defs + {"Arrow1Lend"})
    ensures FindOr(m, "HeadArrow", Txt("")) == Txt("Bar") ==>
      HeadArrowStep(m, e) == Effect(e.scope["marker-end" := "url(#mBar)"], e.defs + {"Bar"})
    ensures FindOr(m, "HeadArrow", Txt("")) == Txt("0") ==>
      HeadArrowStep(m, e) == Effect(e.scope["marker-end" := "none"], e.defs)
    ensures FindOr(m, "HeadArrow", Txt("")) !in {Txt("FilledArrow"), Txt("Bar"), Txt("0")} ==>
      HeadArrowStep(m, e) == e
  {
  }

  /** TailArrow FilledArrow points marker-start at Arrow1Lstart and registers
      it; CrowBall points it at mCrowBall and registers CrowBall; "0" turns
      the start marker off and registers nothing; any other value, or none,
      changes nothing. */
  lemma TailArrowCases(m: map<string, Value>, e: Effect)
    ensures FindOr(m, "TailArrow", Txt("")) == Txt("FilledArrow") ==>
      TailArrowStep(m, e) == Effect(e.scope["marker-start" := "url(#Arrow1Lstart)"], e.defs + {"Arrow1Lstart"})
    ensures FindOr(m, "TailArrow", Txt("")) == Txt("CrowBall") ==>
      TailArrowStep(m, e) == Effect(e.scope["marker-start" := "url(#mCrowBall)"], e.defs + {"CrowBall"})
    ensures FindOr(m, "TailArrow", Txt("")) == Txt("0") ==>
      TailArrowStep(m, e) == Effect(e.scope["marker-start" := "none"], e.defs)
    ensures FindOr(m, "TailArrow", Txt("")) !in {Txt("FilledArrow"), Txt("CrowBall"), Txt("0")} ==>
      TailArrowStep(m, e) == e
  {
  }

  /** Registering a definition a second time changes nothing. */
  lemma RequireTwice(e: Effect, d: string)
    ensures Require(Require(e, d), d) == Require(e, d)
  {
  }

  /** The arrow steps depend only on the graphic's own entries, so applying
      one twice is the same as applying it once. */
  lemma ArrowStepsIdempotent(m: map<string, Value>, e: Effect)
    ensures HeadArrowStep(m, HeadArrowStep(m, e)) == HeadArrowStep(m, e)
    ensures TailArrowStep(m, TailArrowStep(m, e)) == TailArrowStep(m, e)
  {
    HeadArrowCases(m, e);
    HeadArrowCases(m, HeadArrowStep(m, e));
    TailArrowCases(m, e);
    TailArrowCases(m, TailArrowStep(m, e));
  }

  /** With the comparison evidently intended, the patterns Graffle writes
      give their dash arrays. */
  lemma PatternDashes(m: map<string, Value>, e: Effect, n: int)
    requires n == 1 || n == 2
    requires "Pattern" in m && m["Pattern"] == Str(IntText(n))
    ensures PatternStep(m, e) == Set(e, "stroke-dasharray", if n == 1 then "3 3" else "5 5")
  {
    PatternNeverMatches(n);
  }

  /** A pattern that reads as neither 1 nor 2, or no pattern, leaves
      stroke-dasharray (and everything else) as it was. */
  lemma PatternOther(m: map<string, Value>, e: Effect)
    requires "Pattern" in m ==> Int(m["Pattern"]) != Ok(1) && Int(m["Pattern"]) != Ok(2)
    ensures PatternStep(m, e) == e
  {
  }

  // ----- svgSetGraffleFont -----

  /** The family substitutions: LucidaGrande and Courier are replaced; the
      GillSans line compares instead of assigning, so GillSans is kept. */
  function Family(f: string): (r: string)
    ensures f == "LucidaGrande" ==> r == "Luxi Sans"
    ensures f == "Courier" ==> r == "Courier New"
    ensures f != "LucidaGrande" && f != "Courier" ==> r == f
  {
    if f == "LucidaGrande" then "Luxi Sans"
    else if f == "Courier" then "Courier New"
    else f
  }

  /** "fill:#rrggbb" for a font Color; any failure of extract_colour is
      caught and gives black. */
  function FontColour(col: Value): (r: string)
    ensures ExtractColour(col).Err? ==> r == "fill:#000000"
    ensures ExtractColour(col).Ok? ==> r == "fill:#" + ExtractColour(col).value
  {
    var c := ExtractColour(col);
    "fill:#" + (if c.Ok? then c.value else "000000")
  }

  /** "font-family: %s" of the Font entry, after the substitutions. */
  function FamilyPart(f: Value): (r: Result<string>)
    ensures r.Ok? <==> Show(f).Ok?
    ensures f.Str? ==> r == Ok("font-family: " + Family(f.s))
    ensures r.Ok? ==> "font-family: " <= r.value
  {
    if f.Str? then Ok("font-family: " + Family(f.s))
    else
      var t :- Show(f);
      Ok("font-family: " + t)
  }

  /** "font-size:%dpx" of int(size). */
  function SizePart(s: Value): (r: Result<string>)
    ensures r.Ok? <==> Int(s).Ok?
    ensures r.Err? ==> (s.Str? && r.fault == ValueError) || (!s.Str? && r.fault == TypeError)
  {
    var n :- Int(s);
    Ok("font-size:" + IntText(n) + "px")
  }

  /** The declarations of the font fragment: colour, family, size, each
      only when given. */
  function FontParts(font: Value): (r: Result<seq<string>>)
    ensures !font.Dict? ==> r == Err(AttributeError)
    ensures r.Ok? ==> |r.value| <= 3
  {
    if !font.Dict? then Err(AttributeError)
    else
      var m := font.entries;
      var p1 := match Find(m, "Color") case None => [] case Some(c) => [FontColour(c)];
      var p2 :- match Find(m, "Font") case None => Ok([]) case Some(f) => (var t :- FamilyPart(f); Ok([t]));
      var p3 :- match Find(m, "Size") case None => Ok([]) case Some(s) => (var t :- SizePart(s); Ok([t]));
      Ok(p1 + p2 + p3)
  }

  /** svgSetGraffleFont: no FontInfo keeps the current font; otherwise the
      declarations joined with ";". */
  function FontStep(font: Option<Value>, current: string): (r: Result<string>)
    ensures font.None? ==> r == Ok(current)
    ensures font.Some? ==> (r.Ok? <==> FontParts(font.value).Ok?)
  {
    if font.None? then Ok(current)
    else
      var parts :- FontParts(font.value);
      Ok(Join(parts, ";"))
  }

  /** The font fragment splits back at ";" into its declarations, when none
      of them holds a ";". */
  lemma FontFragmentSplits(font: Value, current: string)
    requires FontParts(font).Ok? && FontParts(font).value != []
    requires forall i :: 0 <= i < |FontParts(font).value| ==> ';' !in FontParts(font).value[i]
    ensures Split(FontStep(Some(font), current).value, ';') == FontParts(font).value
  {
    SplitJoin(FontParts(font).value, ';');
  }

  /** A font given only by its size, as Graffle writes it, gives the single
      declaration "font-size:<n>px". */
  lemma FontSizeOnly(n: int, current: string)
    ensures FontStep(Some(Dict(map["Size" := Str(IntText(n))])), current) == Ok("font-size:" + IntText(n) + "px")
  {
    var t := "font-size:" + IntText(n) + "px";
    assert SizePart(Str(IntText(n))) == Ok(t) by {
      IntTextRoundTrip(n);
    }
    var m := map["Size" := Str(IntText(n))];
    assert Find(m, "Color") == None && Find(m, "Font") == None && Find(m, "Size") == Some(Str(IntText(n)));
    assert [] + [] + [t] == [t];
    assert FontParts(Dict(m)) == Ok([t]);
  }

  /** A font whose colour cannot be read is drawn black. */
  lemma FontColourFallback(col: Value, current: string)
    requires ExtractColour(col).Err?
    ensures FontStep(Some(Dict(map["Color" := col])), current) == Ok("fill:#000000")
  {
    var m := map["Color" := col];
    assert Find(m, "Color") == Some(col) && Find(m, "Font") == None && Find(m, "Size") == None;
    assert ["fill:#000000"] + [] + [] == ["fill:#000000"];
    assert FontParts(Dict(m)) == Ok(["fill:#000000"]);
  }

  // ----- svg_add_requirements -----

  /** The definitions svg_add_requirements knows, in the order it emits
      them. */
  const DefOrder: seq<string> := ["Arrow1Lend", "Arrow1Lstart", "DropShadow", "CrowBall", "Bar"]

  const DefNames: set<string> := {"Arrow1Lend", "Arrow1Lstart", "DropShadow", "CrowBall", "Bar"}

  /** The registered definitions among `order`, in the order of `order`. */
  function Required(order: seq<string>, required: set<string>): (r: seq<string>)
    ensures |r| <= |order|
  {
    if order == [] then []
    else (if order[0] in required then [order[0]] else []) + Required(order[1..], required)
  }

  /** The definitions emitted are exactly those of `order` that are
      registered. */
  lemma {:induction false} RequiredMembers(order: seq<string>, required: set<string>)
    ensures forall d :: d in Required(order, required) <==> d in order && d in required
  {
    if order != [] {
      RequiredMembers(order[1..], required);
      assert order == [order[0]] + order[1..];
    }
  }

  /** Position of d in `order`. */
  function Rank(order: seq<string>, d: string): nat
    requires d in order
  {
    if order[0] == d then 0 else 1 + Rank(order[1..], d)
  }

  /** No entry of s occurs twice. */
  predicate Distinct(s: seq<string>)
  {
    s == [] || (s[0] !in s[1..] && Distinct(s[1..]))
  }

  /** An entry after the head of a list without duplicates ranks one
      further than in the tail. */
  lemma RankTail(order: seq<string>, x: string)
    requires order != [] && x in order[1..] && x != order[0]
    ensures x in order && Rank(order, x) == 1 + Rank(order[1..], x)
  {
  }

  /** Required keeps the order of `order`: earlier entries of the result
      come earlier in `order`, so none is emitted twice. */
  lemma {:induction false} RequiredOrdered(order: seq<string>, required: set<string>, i: nat, j: nat)
    requires Distinct(order) && i < j < |Required(order, required)|
    ensures Required(order, required)[i] in order && Required(order, required)[j] in order
    ensures Rank(order, Required(order, required)[i]) < Rank(order, Required(order, required)[j])
  {
    var r := Required(order, required);
    var rest := Required(order[1..], required);
    var x, y := r[i], r[j];
    RequiredMembers(order[1..], required);
    if order[0] in required {
      assert r == [order[0]] + rest;
      assert y == rest[j - 1];
      RankTail(order, y);
      if i > 0 {
        assert x == rest[i - 1];
        RankTail(order, x);
        RequiredOrdered(order[1..], required, i - 1, j - 1);
        assert Rank(order[1..], x) < Rank(order[1..], y);
      } else {
        assert x == order[0];
      }
      assert Rank(order, x) < Rank(order, y);
    } else {
      assert r == rest;
      RankTail(order, x);
      RankTail(order, y);
      RequiredOrdered(order[1..], required, i, j);
      assert Rank(order[1..], x) < Rank(order[1..], y);
      assert Rank(order, x) < Rank(order, y);
    }
  }

  /** svg_add_requirements emits exactly the registered definitions it
      knows, each once, in the fixed order; registering again changes
      nothing, and unknown names are never emitted. */
  lemma RequirementsEmitted(required: set<string>, d: string)
    ensures d in Required(DefOrder, required) <==> d in required && d in DefNames
  {
    RequiredMembers(DefOrder, required);
    assert d in DefOrder <==> d in DefNames;
  }

  /** ... and in the fixed order, so each at most once. */
  lemma RequirementsInOrder(required: set<string>, i: nat, j: nat)
    requires i < j < |Required(DefOrder, required)|
    ensures Required(DefOrder, required)[i] != Required(DefOrder, required)[j]
    ensures Required(DefOrder, required)[i] in DefOrder && Required(DefOrder, required)[j] in DefOrder
    ensures Rank(DefOrder, Required(DefOrder, required)[i]) < Rank(DefOrder, Required(DefOrder, required)[j])
  {
    assert Distinct(DefOrder);
    RequiredOrdered(DefOrder, required, i, j);
  }
}
