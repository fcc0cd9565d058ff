/** Colour encoding: mkHex writes one channel in [0, 1] as two hexadecimal
    digits, and extract_colour writes a Graffle colour dictionary as the six
    digits of an SVG #rrggbb colour. */
module Colour {
  import opened Base
  import opened Strings
  import opened Plist

  /** int() of a float: the integer part, rounding toward zero. */
  function Trunc(x: real): (n: int)
    ensures x >= 0.0 ==> n == x.Floor
    ensures x < 0.0 ==> n == -((-x).Floor) && n <= 0
    ensures (n as real) <= x < (n as real) + 1.0 || (n as real) - 1.0 < x <= (n as real)
  {
    if x >= 0.0 then x.Floor else -((-x).Floor)
  }

  /** min(x * 256, 255). */
  function Scale(c: real): real
  {
    if 255.0 < c * 256.0 then 255.0 else c * 256.0
  }

  /** mkHex of a channel already read as a number. */
  function HexOf(c: real): (s: string)
    ensures |s| >= 2
    ensures c >= 0.0 ==> |s| == 2 && AllHex(s)
  {
    Hex02(Trunc(Scale(c)))
  }

  /** mkHex(v): float(v), scaled, truncated, written with "%02x". */
  function MkHex(v: Value): (r: Result<string>)
    ensures r.Ok? <==> Float(v).Ok?
    ensures r.Ok? ==> |r.value| >= 2
    ensures r.Ok? && Float(v).value >= 0.0 ==> |r.value| == 2 && AllHex(r.value)
  {
    var c :- Float(v);
    Ok(HexOf(c))
  }

  /** A non-negative channel becomes exactly two lower-case hexadecimal digits
      denoting floor(min(c * 256, 255)); so the digits always denote a number
      in 0..255. */
  lemma HexOfChannel(c: real)
    requires c >= 0.0
    ensures |HexOf(c)| == 2 && AllHex(HexOf(c))
    ensures HexValue(HexOf(c)) == Scale(c).Floor
    ensures HexValue(HexOf(c)) <= 255
    ensures c * 256.0 <= 255.0 ==> HexValue(HexOf(c)) == (c * 256.0).Floor
  {
    assert 0.0 <= Scale(c) <= 255.0;
    assert Trunc(Scale(c)) == Scale(c).Floor;
  }

  /** A channel of 255/256 or more saturates at "ff". */
  lemma HexOfSaturates(c: real)
    requires c >= 255.0 / 256.0
    ensures HexOf(c) == "ff"
  {
    assert Scale(c) == 255.0;
    assert Trunc(255.0) == 255;
    assert HexDigits(15) == "f";
    assert HexDigits(255) == HexDigits(15) + [HexChar(15)];
  }

  /** The scaled channel is truncated, not rounded: 127.75 is written "7f",
      not "80". */
  lemma HexOfTruncates()
    ensures HexOf(127.75 / 256.0) == "7f"
  {
    assert Scale(127.75 / 256.0) == 127.75;
    assert Trunc(127.75) == 127;
    assert HexDigits(7) == "7";
    assert HexDigits(127) == HexDigits(7) + [HexChar(15)];
  }

  /** Truncation toward zero sends a slightly negative channel to "00". */
  lemma HexOfSmallNegative(c: real)
    requires -1.0 / 256.0 < c < 0.0
    ensures HexOf(c) == "00"
  {
    assert Scale(c) == c * 256.0;
    assert Trunc(Scale(c)) == 0;
    assert HexDigits(0) == "0";
  }

  /** extract_colour(col): mkHex of col["r"], col["g"] and col["b"], in that
      order, joined. */
  function ExtractColour(col: Value): (r: Result<string>)
    ensures r.Ok? <==> Channel(col, "r").Ok? && Channel(col, "g").Ok? && Channel(col, "b").Ok?
    ensures r.Ok? ==> |r.value| >= 6
  {
    var r :- Index(col, "r");
    var hr :- MkHex(r);
    var g :- Index(col, "g");
    var hg :- MkHex(g);
    var b :- Index(col, "b");
    var hb :- MkHex(b);
    Ok(hr + hg + hb)
  }

  /** The channel "r", "g" or "b" of a colour, read as a number. */
  function Channel(col: Value, k: string): (r: Result<real>)
    ensures !col.Dict? ==> r == Err(TypeError)
    ensures col.Dict? && k !in col.entries ==> r == Err(KeyError(k))
    ensures col.Dict? && k in col.entries ==> r == Float(col.entries[k])
  {
    var v :- Index(col, k);
    Float(v)
  }

  /** A colour whose three channels read as non-negative numbers is written
      as exactly six hexadecimal digits: two for r, then two for g, then two
      for b. */
  lemma ExtractColourDigits(col: Value, r: real, g: real, b: real)
    requires Channel(col, "r") == Ok(r) && Channel(col, "g") == Ok(g) && Channel(col, "b") == Ok(b)
    requires r >= 0.0 && g >= 0.0 && b >= 0.0
    ensures ExtractColour(col).Ok?
    ensures var s := ExtractColour(col).value;
      |s| == 6 && AllHex(s) && s[..2] == HexOf(r) && s[2..4] == HexOf(g) && s[4..] == HexOf(b)
  {
    HexOfChannel(r);
    HexOfChannel(g);
    HexOfChannel(b);
    var s := HexOf(r) + HexOf(g) + HexOf(b);
    assert ExtractColour(col) == Ok(s);
    assert s[..2] == HexOf(r) && s[2..4] == HexOf(g) && s[4..] == HexOf(b);
  }

  /** Only the r, g and b entries matter: the alpha channel and any other
      entry are ignored. */
  lemma ExtractColourIgnoresOthers(m: map<string, Value>, m': map<string, Value>)
    requires forall k :: k in {"r", "g", "b"} ==> (k in m <==> k in m') && (k in m ==> m[k] == m'[k])
    ensures ExtractColour(Dict(m)) == ExtractColour(Dict(m'))
  {
    assert "r" in {"r", "g", "b"} && "g" in {"r", "g", "b"} && "b" in {"r", "g", "b"};
  }

  /** A colour without a red entry fails with KeyError('r'), whatever else
      it holds. */
  lemma ExtractColourNeedsRed(m: map<string, Value>)
    requires "r" !in m
    ensures ExtractColour(Dict(m)) == Err(KeyError("r"))
  {
  }

  /** The stroke default, black, is written "000000". */
  lemma BlackIsZeros()
    ensures ExtractColour(Black) == Ok("000000")
  {
    assert HexOf(0.0) == "00" by {
      assert Trunc(Scale(0.0)) == 0;
      assert HexDigits(0) == "0";
    }
    assert Float(Number(0)) == Ok(0.0);
    assert MkHex(Number(0)) == Ok("00");
    assert Index(Black, "r") == Ok(Number(0));
    assert Index(Black, "g") == Ok(Number(0));
    assert Index(Black, "b") == Ok(Number(0));
    assert ExtractColour(Black) == Ok("00" + "00" + "00");
    assert "00" + "00" + "00" == "000000";
  }

  /** {"r": 0., "g": 0., "b": 0.}. */
  const Black := Dict(map["r" := Number(0), "g" := Number(0), "b" := Number(0)])
}
