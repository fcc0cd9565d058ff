/** The coordinate readers: parseCoords, for a point written "{x,y}", and
    extractBoundCOordinates, for a bounds rectangle written
    "{{x, y}, {w, h}}". */
module Coords {
  import opened Base
  import opened Strings
  import opened Plist

  /** float() of every field, left to right; the first malformed field
      raises. */
  function FloatsOf(fields: seq<string>): (r: Result<seq<real>>)
    ensures r.Ok? ==> |r.value| == |fields|
  {
    if fields == [] then Ok([])
    else
      var init :- FloatsOf(fields[..|fields| - 1]);
      var x :- ParseReal(fields[|fields| - 1]);
      Ok(init + [x])
  }

  /** parseCoords(s): the text between the first and the last character,
      split at commas, every field read with float(). */
  function ParseCoords(s: string): (r: Result<seq<real>>)
    ensures r.Ok? ==> |r.value| == Count(Inner(s), ',') + 1
  {
    FloatsOf(Split(Inner(s), ','))
  }

  /** parseCoords applied to a decoded value: only text has .split (a
      list's slice lacks it; other values cannot be sliced). */
  function CoordsOf(v: Value): (r: Result<seq<real>>)
    ensures r.Ok? ==> v.Str?
    ensures v.Array? ==> r == Err(AttributeError)
    ensures !v.Str? && !v.Array? ==> r == Err(TypeError)
  {
    match v
    case Str(s) => ParseCoords(s)
    case Array(_) => Err(AttributeError)
    case _ => Err(TypeError)
  }

  /** Text with no brace and no comma in it: a bare numeral. */
  predicate Plain(t: string)
  {
    '{' !in t && '}' !in t && ',' !in t
  }

  /** parseCoords("{p,q}") reads back both numbers, in order. */
  lemma ParseCoordsPair(a: string, b: string, p: real, q: real)
    requires Plain(a) && Plain(b) && ParseReal(a) == Ok(p) && ParseReal(b) == Ok(q)
    ensures ParseCoords("{" + a + "," + b + "}") == Ok([p, q])
  {
    var s := "{" + a + "," + b + "}";
    assert Inner(s) == a + [','] + b;
    SplitField(a, b, ',');
    SplitWhole(b, ',');
    assert Split(Inner(s), ',') == [a, b];
    FloatsOfSnoc([], a);
    assert [] + [a] == [a] && [] + [p] == [p];
    FloatsOfSnoc([a], b);
    assert [a] + [b] == [a, b] && [p] + [q] == [p, q];
  }

  /** The text read when a page has no CanvasOrigin. */
  const DefaultOrigin: string := "{0,0}"

  /** The default canvas origin "{0,0}" is the point (0, 0). */
  lemma ParseCoordsOrigin()
    ensures ParseCoords(DefaultOrigin) == Ok([0.0, 0.0])
  {
    RealOfIntText(0);
    assert IntText(0) == "0";
    ParseCoordsPair("0", "0", 0.0, 0.0);
    assert "{" + "0" + "," + "0" + "}" == DefaultOrigin;
  }

  // ----- extractBoundCOordinates -----

  /** One field of the bounds text with every brace removed. */
  function Unbrace(f: string): (r: string)
    ensures '{' !in r && '}' !in r
  {
    RemoveKeepsAbsent(Remove(f, '{'), '}', '{');
    Remove(Remove(f, '{'), '}')
  }

  /** Removing one character brings in no other. */
  lemma {:induction false} RemoveKeepsAbsent(s: string, c: char, x: char)
    requires x !in s
    ensures x !in Remove(s, c)
  {
    if s != [] {
      RemoveKeepsAbsent(s[1..], c, x);
    }
  }

  /** The fields of the bounds text: s[1:-1], stripped, split at commas. */
  function BoundsFields(s: string): seq<string>
  {
    Split(Strip(Inner(s)), ',')
  }

  /** Every field with its braces removed. */
  function Unbraced(fields: seq<string>): (r: seq<string>)
    ensures |r| == |fields|
  {
    if fields == [] then []
    else Unbraced(fields[..|fields| - 1]) + [Unbrace(fields[|fields| - 1])]
  }

  /** extractBoundCOordinates(s): one number per comma-separated field of the
      stripped inner text, braces removed. */
  function Bounds(s: string): (r: Result<seq<real>>)
    ensures r.Ok? ==> |r.value| == |BoundsFields(s)|
  {
    FloatsOf(Unbraced(BoundsFields(s)))
  }

  /** extractBoundCOordinates: split the text into its fields, then read
      them. */
  method ExtractBoundCoordinates(bnds: string) returns (r: Result<seq<real>>)
    ensures r == Bounds(bnds)
  {
    r := ReadFields(BoundsFields(bnds));
  }

  /** The loop of extractBoundCOordinates over the fields: each one with its
      braces removed, read with float() and appended to `coords`. */
  method ReadFields(fields: seq<string>) returns (r: Result<seq<real>>)
    ensures r == FloatsOf(Unbraced(fields))
  {
    var coords: seq<real> := [];
    var i := 0;
    while i < |fields|
      invariant 0 <= i <= |fields|
      invariant FloatsOf(Unbraced(fields[..i])) == Ok(coords)
    {
      var bnd := Unbrace(fields[i]);
      var x := ParseReal(bnd);
      assert fields[..i + 1][..i] == fields[..i];
      assert Unbraced(fields[..i + 1]) == Unbraced(fields[..i]) + [bnd];
      FloatsOfSnoc(Unbraced(fields[..i]), bnd);
      if x.Err? {
        UnbracedFailedPrefix(fields, i + 1);
        return Err(x.fault);
      }
      coords := coords + [x.value];
      i := i + 1;
    }
    assert fields[..i] == fields;
    r := Ok(coords);
  }

  /** Once the fields up to j fail, all of them fail the same way. */
  lemma {:induction false} UnbracedFailedPrefix(fields: seq<string>, j: nat)
    requires j <= |fields| && FloatsOf(Unbraced(fields[..j])).Err?
    ensures FloatsOf(Unbraced(fields)) == FloatsOf(Unbraced(fields[..j]))
    decreases |fields| - j
  {
    if j < |fields| {
      var p := fields[..j + 1];
      assert p[..j] == fields[..j];
      assert Unbraced(p) == Unbraced(fields[..j]) + [Unbrace(fields[j])];
      FloatsOfSnoc(Unbraced(fields[..j]), Unbrace(fields[j]));
      UnbracedFailedPrefix(fields, j + 1);
    } else {
      assert fields[..j] == fields;
    }
  }

  /** extractBoundCOordinates applied to a decoded value. */
  function BoundsOf(v: Value): (r: Result<seq<real>>)
    ensures v.Array? ==> r == Err(AttributeError)
    ensures !v.Str? && !v.Array? ==> r == Err(TypeError)
  {
    match v
    case Str(s) => Bounds(s)
    case Array(_) => Err(AttributeError)
    case _ => Err(TypeError)
  }

  lemma {:induction false} RemoveAppend(x: string, y: string, c: char)
    ensures Remove(x + y, c) == Remove(x, c) + Remove(y, c)
  {
    if x == [] {
      assert x + y == y;
    } else {
      assert (x + y)[1..] == x[1..] + y;
      RemoveAppend(x[1..], y, c);
    }
  }

  lemma UnbraceAppend(x: string, y: string)
    ensures Unbrace(x + y) == Unbrace(x) + Unbrace(y)
  {
    RemoveAppend(x, y, '{');
    RemoveAppend(Remove(x, '{'), Remove(y, '{'), '}');
  }

  lemma UnbracePieces(t: string)
    requires Plain(t)
    ensures Unbrace("{" + t) == t && Unbrace(" {" + t) == " " + t && Unbrace(" " + t + "}") == " " + t
  {
    assert Unbrace(t) == t;
    assert Unbrace("{") == [];
    assert Unbrace(" ") == " ";
    assert Unbrace("}") == [];
    assert Unbrace(" {") == " " by {
      UnbraceAppend(" ", "{");
    }
    UnbraceAppend("{", t);
    UnbraceAppend(" {", t);
    UnbraceAppend(" ", t);
    UnbraceAppend(" " + t, "}");
  }

  /** Four comma-free fields joined by commas split back into themselves. */
  lemma SplitFour(t: string, f0: string, f1: string, f2: string, f3: string)
    requires ',' !in f0 && ',' !in f1 && ',' !in f2 && ',' !in f3
    requires t == f0 + [','] + (f1 + [','] + (f2 + [','] + f3))
    ensures Split(t, ',') == [f0, f1, f2, f3]
  {
    SplitField(f0, f1 + [','] + (f2 + [','] + f3), ',');
    SplitField(f1, f2 + [','] + f3, ',');
    SplitField(f2, f3, ',');
    SplitWhole(f3, ',');
  }

  /** The text between the outer braces of a Graffle bounds text, stripped. */
  lemma GraffleBoundsInner(s: string, a: string, b: string, c: string, d: string)
    requires s == "{{" + a + ", " + b + "}, {" + c + ", " + d + "}}"
    ensures Strip(Inner(s)) == "{" + a + [','] + (" " + b + "}" + [','] + (" {" + c + [','] + " " + d + "}"))
  {
    var inner := "{" + a + [','] + (" " + b + "}" + [','] + (" {" + c + [','] + " " + d + "}"));
    assert s == "{" + inner + "}";
    assert Inner(s) == inner;
    StripTrimmed(inner);
  }

  /** The fields of a Graffle bounds text "{{a, b}, {c, d}}". */
  lemma GraffleBoundsFields(s: string, a: string, b: string, c: string, d: string)
    requires Plain(a) && Plain(b) && Plain(c) && Plain(d)
    requires s == "{{" + a + ", " + b + "}, {" + c + ", " + d + "}}"
    ensures BoundsFields(s) == ["{" + a, " " + b + "}", " {" + c, " " + d + "}"]
  {
    GraffleBoundsInner(s, a, b, c, d);
    SplitFour(Strip(Inner(s)), "{" + a, " " + b + "}", " {" + c, " " + d + "}");
  }

  /** Reading one more field: the numbers so far, then that field's. */
  lemma FloatsOfSnoc(fs: seq<string>, f: string)
    ensures FloatsOf(fs + [f]) ==
      if FloatsOf(fs).Err? then FloatsOf(fs)
      else if ParseReal(f).Err? then Err(ParseReal(f).fault)
      else Ok(FloatsOf(fs).value + [ParseReal(f).value])
  {
    assert (fs + [f])[..|fs|] == fs;
  }

  /** Four fields that each read as a number read as those four numbers. */
  lemma FloatsOfFour(a: string, b: string, c: string, d: string, x: real, y: real, w: real, h: real)
    requires ParseReal(a) == Ok(x) && ParseReal(b) == Ok(y)
    requires ParseReal(c) == Ok(w) && ParseReal(d) == Ok(h)
    ensures FloatsOf([a, b, c, d]) == Ok([x, y, w, h])
  {
    FloatsOfSnoc([], a);
    assert [] + [a] == [a] && [] + [x] == [x];
    FloatsOfSnoc([a], b);
    assert [a] + [b] == [a, b] && [x] + [y] == [x, y];
    FloatsOfSnoc([a, b], c);
    assert [a, b] + [c] == [a, b, c] && [x, y] + [w] == [x, y, w];
    FloatsOfSnoc([a, b, c], d);
    assert [a, b, c] + [d] == [a, b, c, d] && [x, y, w] + [h] == [x, y, w, h];
  }

  lemma UnbracedFour(f0: string, f1: string, f2: string, f3: string)
    ensures Unbraced([f0, f1, f2, f3]) == [Unbrace(f0), Unbrace(f1), Unbrace(f2), Unbrace(f3)]
  {
    var u0, u1, u2, u3 := Unbrace(f0), Unbrace(f1), Unbrace(f2), Unbrace(f3);
    assert [f0][..0] == [];
    assert Unbraced([f0]) == [u0];
    assert [f0, f1][..1] == [f0];
    assert Unbraced([f0, f1]) == [u0] + [u1] == [u0, u1];
    assert [f0, f1, f2][..2] == [f0, f1];
    assert Unbraced([f0, f1, f2]) == [u0, u1] + [u2] == [u0, u1, u2];
    assert [f0, f1, f2, f3][..3] == [f0, f1, f2];
    assert Unbraced([f0, f1, f2, f3]) == [u0, u1, u2] + [u3];
  }

  /** A Graffle bounds text "{{a, b}, {c, d}}" is read as exactly
      [a, b, c, d]. */
  lemma BoundsOfGraffleText(s: string, a: string, b: string, c: string, d: string,
                            x: real, y: real, w: real, h: real)
    requires s == "{{" + a + ", " + b + "}, {" + c + ", " + d + "}}"
    requires Plain(a) && Plain(b) && Plain(c) && Plain(d)
    requires ParseReal(a) == Ok(x) && ParseReal(b) == Ok(y) && ParseReal(c) == Ok(w) && ParseReal(d) == Ok(h)
    ensures Bounds(s) == Ok([x, y, w, h])
  {
    GraffleBoundsFields(s, a, b, c, d);
    UnbracePieces(a);
    UnbracePieces(b);
    UnbracePieces(c);
    UnbracePieces(d);
    RealLeadingSpace(' ', b);
    RealLeadingSpace(' ', c);
    RealLeadingSpace(' ', d);
    UnbracedFour("{" + a, " " + b + "}", " {" + c, " " + d + "}");
    FloatsOfFour(a, " " + b, " " + c, " " + d, x, y, w, h);
  }
}
