# graffle2svg core in Dafny

This project models the converter at the heart of graffle2svg. The
converter is the `GraffleParser` class of `graffle2svg/main.py`. It reads
an OmniGraffle document, which is an Apple property list, and draws it as
an SVG element tree. The model covers six parts:

- **Property-list decoding** (`Plist`). `ReturnGraffleNode`,
  `ReturnGraffleDict` and `ReturnGraffleArray` run over an element tree
  (`Text` or `Element(name, children)`) and produce a decoded `Value`. The
  Python operations the walk applies to decoded values are modelled with
  Python 2 semantics: `d[k]`, `.get`, `float()`, `int()` (which
  truncates), `len`, indexing with negative indices, and `reversed`.
  Python exceptions become `Err` of a `Fault`.
- **Coordinates and colours** (`Strings`, `Coords`, `Colour`).
  - `parseCoords` and `extractBoundCOordinates` are string tokenisers over
    `strip`, `split`, `replace` and `float()`.
  - `float()` is a scanner over decimal text.
  - `mkHex` and `extract_colour` write two lower-case hex digits per
    channel.
- **Style application** (`Styles`). `svgSetGraffleStyle` writes CSS
  properties into the innermost scope of the cascading style and registers
  the marker and filter definitions they refer to. `svgSetGraffleFont`
  builds the font fragment. `svg_add_requirements` emits the registered
  definitions in a fixed order.
- **Shape geometry** (`Geometry`). It gives the vertex lists of the
  diamond, the triangles, the adjustable arrow and the subprocess lines,
  the bezier unit-point mapping, and the ellipse. It also builds the path
  data of `svg_addPath`: moveto, linetos and closepath, as in section 8.3
  of the SVG 1.1 specification.
- **The graphics walk** (`Render`). `svgItterateGraffleGraphics`,
  `svgAddGraffleShapedGraphic`, the `svg_add*` emitters, `extractPage`,
  `walkGraffleDoc` and `walkGraffle` are functions of the parser's state.
  That state is the style scope stack, `required_defs`,
  `svg_current_font` and the children of `svg_current_layer`. Emitted
  elements are records (`Svg`) appended to a sequence per container.
- **The parser object** (`Parser`). `GraffleParser` is a class whose
  fields are the state the source changes in place:
  - `style`, `requiredDefs`, `currentFont`, `layer`;
  - `defs` (the blocks appended to `svg_def`);
  - `imagelist` and `fileinfo`.

  Each method follows the branches of its Python counterpart and is
  proved equal to its `Render` function: its postcondition says that the
  new fields equal what that function computes from the old ones, or
  that it fails with the same fault. The
  loops of `svgItterateGraffleGraphics`, `walkGraffleDoc` and
  `svg_add_requirements` are `while` loops with invariants. `Run`
  constructs a parser, walks a document and is proved equal to
  `Render.Convert`.

Collaborators whose code is not part of this model are fields of
`Render.Env`, which every operation takes as a parameter:

- `str()` and `"%f"` of a float;
- the `geom` flips and rotation;
- `extractRTFString`;
- `fileinfo.FileInfo`.

Two slips of the source are modelled as written:

- HeadArrow `FilledArrow` sets `marker-end` to `":url(#Arrow1Lend)"`
  with a leading colon (main.py:448).
- The `GillSans` branch compares instead of assigning, so the family
  passes through unchanged (main.py:502-503).

Two further slips, listed under Findings, are modelled both as written
and corrected. The walk, and so `Parser.Run`, uses the corrected form;
"## Left out" names the members this affects.

## Model

| member | source | states |
|---|---|---|
| Strings.Strip | graffle2svg/main.py:211 | `str.strip()` gives the slice of the text from its first to its last non-white-space character; everything before and after that slice is white space |
| Strings.StripTrimmed | graffle2svg/main.py:211 | stripping text that has no white space at either end gives it back unchanged |
| Strings.StripLeadingSpace | graffle2svg/main.py:211 | a leading white-space character makes no difference to `strip()` |
| Strings.Inner | graffle2svg/main.py:31 | `s[1:-1]` is `s` without its first and last character, and empty for text shorter than two |
| Strings.Split | graffle2svg/main.py:31 | `split(",")` gives one more field than there are commas; no field holds a comma; joining the fields with the separator gives the text back |
| Strings.JoinEnds | graffle2svg/main.py:510 | `sep.join(parts)` starts with the first part and ends with the last one |
| Strings.SplitJoin | graffle2svg/main.py:31 | splitting fields joined with a separator they do not contain gives the same fields back |
| Strings.SplitField | graffle2svg/main.py:212 | a field free of the separator followed by the separator splits off as the first field |
| Strings.Remove | graffle2svg/main.py:215-216 | `replace(c, "")` removes every `c`, shortens the text by the number of `c`s, and changes nothing when there is none |
| Strings.ParseInt | graffle2svg/main.py:508 | `int()` of text fails only with ValueError |
| Strings.Finish | graffle2svg/main.py:217 | `float()` accepts a text only when it ends after a digit of the number or its exponent, or in trailing white space; otherwise ValueError |
| Strings.Step | graffle2svg/main.py:217 | each character either moves the `float()` scanner on or fails with ValueError |
| Strings.Scan | graffle2svg/main.py:217 | the `float()` scanner fails only with ValueError |
| Strings.ParseReal | graffle2svg/main.py:217 | `float()` of text fails only with ValueError |
| Strings.IntTextRoundTrip | graffle2svg/main.py:330 | `int()` of the decimal text of any integer gives that integer back |
| Strings.RealOfIntText | graffle2svg/main.py:31 | `float()` of the decimal text of any integer gives that integer as a real |
| Strings.RealLeadingSpace | graffle2svg/main.py:217 | `float()` ignores a leading white-space character |
| Strings.ScanDigits | graffle2svg/main.py:31 | the `float()` scanner over a run of digits accumulates exactly their decimal value |
| Strings.HexDigits | graffle2svg/main.py:21 | the hex text of n consists of hex digits, has value n, and is one digit below 16 and at most two below 256 |
| Strings.Hex02 | graffle2svg/main.py:21 | `"%02x"` of 0..255 is exactly two hex digits of that value; a negative number is written with a minus sign |
| Plist.NodeValue | graffle2svg/main.py:148-163 | `ReturnGraffleNode` fails only with TypeError (an unhashable key); a node that is not an element always decodes; a dict element gives a dict and an array element a list |
| Plist.FirstChildAsWritten | graffle2svg/main.py:161-162 | as written, an element without children raises AttributeError; otherwise its first child is decoded |
| Plist.FirstChildValue | graffle2svg/main.py:161-162 | the corrected first-child reading fails only with TypeError; an empty element, or one that starts with text, gives text |
| Plist.DictFrom | graffle2svg/main.py:165-187 | `ReturnGraffleDict` gives a dict that keeps every entry already read, or fails with TypeError |
| Plist.ArrayFrom | graffle2svg/main.py:189-203 | `ReturnGraffleArray` gives a list that starts with the items already read, or fails with TypeError |
| Plist.DecodeNode | graffle2svg/main.py:148-163 | `ReturnGraffleNode` as a method equals `NodeValue`: text gives its whole text, dict and array are decoded, true/false are booleans, string/real/integer give their first child, any other element its node type |
| Plist.DecodeFirstChild | graffle2svg/main.py:161-162 | the method equals the corrected first-child reading, in which an empty element decodes to empty text |
| Plist.DecodeDict | graffle2svg/main.py:165-187 | the loop of `ReturnGraffleDict`: text children skipped, each key names the values after it, a later value for a key replaces the earlier one |
| Plist.DecodeArray | graffle2svg/main.py:189-203 | the loop of `ReturnGraffleArray`: every element child decoded, in order, text skipped |
| Plist.DecodeEncode | graffle2svg/main.py:148-203 | decoding the property-list element written for any value (text keys, nested dicts and arrays) gives that value back |
| Plist.EmptyStringAsWritten | graffle2svg/main.py:161-162 | as written, reading the first child of the empty `<string/>` that encodes empty text raises AttributeError; the corrected reading decodes it to empty text |
| Plist.DecodeItems | graffle2svg/main.py:197-203 | decoding the children written for the items of an array gives the array back |
| Plist.DecodeEntries | graffle2svg/main.py:175-187 | decoding the key/value children written for a dict's entries, in any key order, gives the dict back |
| Plist.EntriesHead | graffle2svg/main.py:182-186 | the encoded entries of a non-empty dict begin with a key element followed by its value element |
| Plist.EntryAdvance | graffle2svg/main.py:182-186 | reading the next encoded entry moves its key from the pending keys to the decoded entries |
| Plist.DictEntryStep | graffle2svg/main.py:182-186 | a key element followed by a value element adds exactly that entry to the dict being built |
| Plist.Index | graffle2svg/main.py:112 | `v[k]` succeeds exactly when `v` is a dict holding `k` |
| Plist.Float | graffle2svg/main.py:634 | `float(v)` always succeeds on a bool or an int; text fails only with ValueError and any other value only with TypeError |
| Plist.Int | graffle2svg/main.py:330 | `int(v)` always succeeds on a bool or an int; text fails only with ValueError and any other value only with TypeError |
| Plist.EqualsInt | graffle2svg/main.py:474 | only a bool or an int can equal a Python int; text never does |
| Plist.EqualsIntConverts | graffle2svg/main.py:474 | a value equal to the int n gives n under both `int()` and `float()` |
| Plist.Len | graffle2svg/main.py:331 | `len(v)` is defined exactly for text, lists and dicts, and is the item count of a list; otherwise TypeError |
| Plist.Item | graffle2svg/main.py:333 | `v[i]` on a list or text succeeds exactly for −len ≤ i < len, and gives an item of the list or one character of the text; other values never raise IndexError |
| Plist.Items | graffle2svg/main.py:224 | iterating a list gives its items and iterating text gives one item per character; anything else fails with TypeError |
| Plist.Show | graffle2svg/main.py:504 | `"%s"` succeeds exactly on text, booleans and ints, and text is written as itself |
| Colour.Trunc | graffle2svg/main.py:21 | `int()` of a float truncates toward zero: floor for non-negative values, ceiling for negative ones, within one of the value |
| Colour.HexOf | graffle2svg/main.py:21 | the channel text always has at least two characters, and exactly two hex digits for a non-negative channel |
| Colour.MkHex | graffle2svg/main.py:19-22 | `mkHex` fails exactly when `float()` of the channel fails; it writes at least two characters, and two hex digits for a non-negative channel |
| Colour.Channel | graffle2svg/main.py:416-418 | `col[k]` read with float(): a non-dict raises TypeError, a missing channel KeyError(k) |
| Colour.ExtractColour | graffle2svg/main.py:414-418 | `extract_colour` succeeds exactly when r, g and b all read as numbers, and then writes at least six characters |
| Colour.HexOfChannel | graffle2svg/main.py:19-22 | for a channel c ≥ 0, `mkHex` gives two hex digits whose value is floor(min(256c, 255)), at most 255 |
| Colour.HexOfSaturates | graffle2svg/main.py:21 | every channel of 255/256 or more gives "ff" |
| Colour.HexOfTruncates | graffle2svg/main.py:21 | `mkHex` truncates rather than rounds: 127.75/256 gives "7f" |
| Colour.HexOfSmallNegative | graffle2svg/main.py:21 | a slightly negative channel truncates to zero and gives "00" |
| Colour.ExtractColourDigits | graffle2svg/main.py:414-418 | `extract_colour` is six hex digits: red, then green, then blue |
| Colour.ExtractColourIgnoresOthers | graffle2svg/main.py:415 | only r, g and b are read; alpha and any other entry make no difference |
| Colour.ExtractColourNeedsRed | graffle2svg/main.py:416 | a colour without r raises KeyError("r") |
| Colour.BlackIsZeros | graffle2svg/main.py:441 | the default stroke colour {r:0,g:0,b:0} is "000000" |
| Coords.ParseCoords | graffle2svg/main.py:29-31 | `parseCoords` gives one number per comma-separated field of the text inside the braces |
| Coords.CoordsOf | graffle2svg/main.py:29-31 | only text can be parsed as coordinates: a list raises AttributeError and any other value TypeError |
| Coords.BoundsOf | graffle2svg/main.py:210-211 | bounds given as a list raise AttributeError (a list slices but has no strip) and any other value that is not text TypeError |
| Coords.ParseCoordsPair | graffle2svg/main.py:29-31 | `parseCoords("{p,q}")` is exactly [p, q] |
| Coords.ParseCoordsOrigin | graffle2svg/main.py:124 | the default canvas origin "{0,0}" is [0, 0] |
| Coords.Unbrace | graffle2svg/main.py:215-216 | a field with its braces removed holds neither brace |
| Coords.Bounds | graffle2svg/main.py:210-219 | one number per comma-separated field of the stripped inner text |
| Coords.ExtractBoundCoordinates | graffle2svg/main.py:210-219 | the method equals the tokeniser `Bounds` |
| Coords.ReadFields | graffle2svg/main.py:214-217 | the loop reads every field with its braces removed, in order, and stops at the first that `float()` rejects |
| Coords.BoundsOfGraffleText | graffle2svg/main.py:210-219 | `extractBoundCOordinates("{{a, b}, {c, d}}")` is exactly [a, b, c, d] |
| Coords.GraffleBoundsFields | graffle2svg/main.py:211-212 | the bounds text splits into the four fields "{a", " b}", " {c", " d}" |
| Coords.UnbracedFailedPrefix | graffle2svg/main.py:214-217 | once a field fails to parse, the fields after it make no difference to the result |
| Geometry.Unpack | graffle2svg/main.py:643 | `x, y, width, height = bounds` succeeds exactly on four numbers and gives them in order |
| Geometry.FirstFour | graffle2svg/main.py:344-346 | `coords[0]` to `coords[3]` succeed exactly when there are at least four and give the first four |
| Geometry.Diamond | graffle2svg/main.py:642-648 | the diamond's vertices are the midpoints of the top, right, bottom and left edges |
| Geometry.DiamondSymmetric | graffle2svg/main.py:642-648 | both diagonals of the diamond meet at the centre of the bounds |
| Geometry.HorizontalTriangle | graffle2svg/main.py:690-694 | top left, midpoint of the right edge, bottom left |
| Geometry.RightTriangle | graffle2svg/main.py:708-712 | top left, bottom right, bottom left |
| Geometry.VerticalTriangle | graffle2svg/main.py:714-718 | top left, top right, midpoint of the bottom edge |
| Geometry.Arrow | graffle2svg/main.py:633-640 | seven points with the apex at the middle of the right edge, the neck at x+w−width, and a shaft of height h·ratio |
| Geometry.ArrowMirror | graffle2svg/main.py:633-640 | point i and point 6−i share x and their y values sum to 2y+h |
| Geometry.SubprocessLines | graffle2svg/main.py:650-663 | two vertical lines spanning the height, at x+w/10 and x+w−w/10 |
| Geometry.SubprocessSymmetric | graffle2svg/main.py:656-663 | the two lines are symmetric about the centre |
| Geometry.Ellipse | graffle2svg/main.py:620-623 | the centre is the centre of the bounds, and the radii reach exactly to its edges |
| Geometry.FromUnit | graffle2svg/main.py:597-602 | unit point (−1,−1) maps to the top left corner, (1,1) to the bottom right, (0,0) to the centre |
| Geometry.UnitRoundTrip | graffle2svg/main.py:597-602 | for a box of non-zero size the unit-point mapping is invertible |
| Geometry.FromUnits | graffle2svg/main.py:602 | every unit point is mapped, in order |
| Geometry.CoordsTexts | graffle2svg/main.py:680 | one "x,y" text per point, in order |
| Geometry.PointText | graffle2svg/main.py:680 | a point is written `str(x) + "," + str(y)` |
| Geometry.LineTos | graffle2svg/main.py:681 | one " L " segment per point text, in order |
| Geometry.PathData | graffle2svg/main.py:680-683 | the path text exists exactly when there is at least one point; with none, `ptStrings[0]` raises IndexError |
| Geometry.PathStartsWithMove | graffle2svg/main.py:681 | the path starts with "M " and the first point |
| Geometry.PathClosesIff | graffle2svg/main.py:682-683 | the path ends with " z" if and only if closepath was asked for |
| Geometry.PathLineCount | graffle2svg/main.py:681 | the path holds exactly one lineto per point after the first |
| Geometry.PathAppend | graffle2svg/main.py:681 | one more point appends exactly one " L " segment |
| Geometry.CoordsTextsNoZ | graffle2svg/main.py:680 | point texts hold no 'z' when number texts hold none |
| Styles.Compose | graffle2svg/main.py:420-482 | two style steps in a row change only the union of their properties and keep every registered definition referenced |
| Styles.Set | graffle2svg/main.py:428 | `self.style[k] = v` sets k to v and changes no other property and no definition |
| Styles.Require | graffle2svg/main.py:448-449 | registering a definition sets the property that uses it to its reference and changes nothing else |
| Styles.Find | graffle2svg/main.py:424 | `d.get(k)` is present exactly when k is a key, with its value |
| Styles.FindOr | graffle2svg/main.py:441 | `d.get(k, dflt)` is the value when k is present, else dflt |
| Styles.FillStep | graffle2svg/main.py:424-433 | the fill part touches only `fill`; a fill that is not a dict raises AttributeError |
| Styles.StrokeColourStep | graffle2svg/main.py:437-444 | the stroke colour touches only `stroke` |
| Styles.HeadArrowStep | graffle2svg/main.py:445-455 | HeadArrow touches only `marker-end` and registers at most Arrow1Lend or Bar, each referenced |
| Styles.TailArrowStep | graffle2svg/main.py:457-467 | TailArrow touches only `marker-start` and registers at most Arrow1Lstart or CrowBall, each referenced |
| Styles.WidthStep | graffle2svg/main.py:468-470 | Width touches only `stroke-width` |
| Styles.PatternStep | graffle2svg/main.py:472-477 | Pattern touches only `stroke-dasharray` and registers nothing |
| Styles.PatternAsWritten | graffle2svg/main.py:474-476 | as written, `pattern == n` holds only for a bool or an int, never for text, and only where the intended comparison holds too |
| Styles.PatternIs | graffle2svg/main.py:474-476 | the intended comparison holds exactly when `int(pattern) == n` |
| Styles.PatternOther | graffle2svg/main.py:472-477 | a pattern that reads as neither 1 nor 2, or no pattern, changes nothing |
| Styles.StrokeStep | graffle2svg/main.py:435-477 | the stroke part touches only the stroke properties and registers only arrow definitions, each referenced; a stroke that is not a dict raises AttributeError |
| Styles.StrokeCompose | graffle2svg/main.py:435-477 | the five stroke steps in sequence compose to the stroke part's contract |
| Styles.ShadowStep | graffle2svg/main.py:479-482 | the shadow touches only `filter` and registers at most DropShadow |
| Styles.StyleStep | graffle2svg/main.py:420-482 | `svgSetGraffleStyle` changes only style properties, registers only the five known definitions, and every definition it registers is referenced by the property that uses it |
| Styles.FillHidden | graffle2svg/main.py:426-428 | a fill with Draws "NO" ends as "none", whatever else the style holds |
| Styles.StrokeHidden | graffle2svg/main.py:437-438 | a stroke with Draws "NO" ends as "none", whatever arrows, width, pattern or shadow follow |
| Styles.StrokeDefaultsToBlack | graffle2svg/main.py:441-444 | a visible stroke without a Color is "#000000" |
| Styles.NoShadowByDefault | graffle2svg/main.py:479 | without a shadow, or with one that has no Draws, nothing changes |
| Styles.ShadowDraws | graffle2svg/main.py:479-482 | a shadow whose Draws is not "NO" registers DropShadow and sets the filter to it |
| Styles.HeadArrowCases | graffle2svg/main.py:445-455 | FilledArrow sets marker-end to ":url(#Arrow1Lend)" and registers Arrow1Lend; Bar sets "url(#mBar)" and registers Bar; "0" sets "none" and registers nothing; any other value changes nothing |
| Styles.TailArrowCases | graffle2svg/main.py:457-467 | FilledArrow sets marker-start to "url(#Arrow1Lstart)" and registers Arrow1Lstart; CrowBall sets "url(#mCrowBall)" and registers CrowBall; "0" sets "none" and registers nothing; any other value changes nothing |
| Styles.RequireTwice | graffle2svg/main.py:448-449 | registering a definition a second time changes nothing |
| Styles.ArrowStepsIdempotent | graffle2svg/main.py:445-467 | applying the HeadArrow or the TailArrow step twice is the same as applying it once |
| Styles.PatternDashes | graffle2svg/main.py:474-477 | pattern 1 gives "3 3" and pattern 2 gives "5 5" |
| Styles.PatternNeverMatches | graffle2svg/main.py:472-477 | as written, the Pattern decoded from an `<integer>` never equals the int it spells, so no dash array is set; the intended comparison does match it |
| Styles.Family | graffle2svg/main.py:497-503 | LucidaGrande becomes Luxi Sans, Courier becomes Courier New, and every other family, GillSans included, is kept |
| Styles.FontColour | graffle2svg/main.py:488-494 | a font colour is "fill:#" and its hex; a colour that fails to read is caught and gives black |
| Styles.FamilyPart | graffle2svg/main.py:496-504 | a text family is written after the renames; any other value is written with `%s`, and fails exactly when it cannot be |
| Styles.SizePart | graffle2svg/main.py:506-508 | the size declaration exists exactly when `int(size)` succeeds; bad text raises ValueError, any other value TypeError |
| Styles.FontParts | graffle2svg/main.py:486-508 | at most three declarations; a font that is not a dict raises AttributeError |
| Styles.FontStep | graffle2svg/main.py:484-510 | no FontInfo keeps the current font; otherwise it fails exactly when a declaration fails |
| Styles.FontFragmentSplits | graffle2svg/main.py:510 | the font fragment splits back at ";" into its declarations |
| Styles.FontSizeOnly | graffle2svg/main.py:506-510 | a font given only by its size is the single declaration "font-size:<n>px" |
| Styles.FontColourFallback | graffle2svg/main.py:490-494 | an unreadable font colour gives "fill:#000000" |
| Styles.Required | graffle2svg/main.py:513-592 | no more blocks are emitted than the fixed order holds definitions |
| Styles.RequiredMembers | graffle2svg/main.py:513-592 | a definition is emitted exactly when it is in the order and registered |
| Styles.RequiredOrdered | graffle2svg/main.py:513-592 | with a duplicate-free order, the emitted definitions follow that order strictly |
| Styles.RequirementsEmitted | graffle2svg/main.py:513-592 | a definition is emitted exactly when it is registered and is one of the five known ones |
| Styles.RequirementsInOrder | graffle2svg/main.py:513-592 | the emitted blocks are distinct and come in the order Arrow1Lend, Arrow1Lstart, DropShadow, CrowBall, Bar |
| Render.Lookup | graffle2svg/main.py:230 | `d[k]` is the value when present and KeyError(k) otherwise |
| Render.StyleAt | graffle2svg/main.py:226-228 | the style step changes only the innermost scope and registers only known definitions |
| Render.SetTop | graffle2svg/main.py:246 | `self.style[k] = v` sets k in the innermost scope and leaves the outer scopes alone |
| Render.Transform | graffle2svg/main.py:673-678 | without flips or rotation the points are kept; the horizontal flip is applied before the vertical one, and a rotation alone just rotates |
| Render.BoundsAt | graffle2svg/main.py:357 | a graphic without Bounds raises KeyError("Bounds"); reading succeeds only on Bounds text |
| Render.BoxAt | graffle2svg/main.py:643 | the box exists exactly when Bounds reads as four numbers, and holds them in order |
| Render.AddPath | graffle2svg/main.py:670-688 | `svg_addPath` appends exactly one path element carrying the current scopes |
| Render.PlainAddPath | graffle2svg/main.py:670-688 | without flips or rotation, svg_addPath emits exactly the path through the given points |
| Render.AddPathPlain | graffle2svg/main.py:670-688 | without flips or rotation, the path has one lineto per point after the first and ends with " z" exactly when closed |
| Render.OptsOf | graffle2svg/main.py:318-324 | a flip is on exactly when its entry is "YES"; a rotation exactly when one is given |
| Render.ImageStep | graffle2svg/main.py:328-337 | an image reference emits at most one element and changes nothing else (the image drawn: `ImageInRange`, `ImagePastEnd`, `ImageFromEnd`) |
| Render.RectShape | graffle2svg/main.py:326-354 | a rectangle or image emits at most one element (the rect drawn: `RectCorner`) |
| Render.ReadEach | graffle2svg/main.py:207 | a list comprehension over the items succeeds exactly when every item reads; then it has one value per item and value i is what item i reads as |
| Render.BoundsEach | graffle2svg/main.py:596 | on success, one coordinate list per unit point, and list i is exactly what `extractBoundCOordinates` reads from unit point i |
| Render.UnitPointsIn | graffle2svg/main.py:597-602 | fails exactly when some unit point has fewer than two numbers; otherwise every unit point is mapped into the bounds, in order |
| Render.BezierShape | graffle2svg/main.py:594-618 | a bezier emits exactly one element (the path drawn: `BezierPath`) |
| Render.BezierPath | graffle2svg/main.py:594-618 | without flips or rotation, a bezier is exactly one open path through its unit points mapped into the bounds, in the current scopes |
| Render.BezierOpen | graffle2svg/main.py:612-617 | a bezier is an open path: its data never ends with " z" |
| Render.CircleShape | graffle2svg/main.py:620-631 | an ellipse emits exactly one element |
| Render.CircleEllipse | graffle2svg/main.py:620-631 | a circle is the one ellipse centred in the bounds whose radii reach exactly to their edges, in the current scopes |
| Render.ArrowShape | graffle2svg/main.py:633-640 | an adjustable arrow emits exactly one element |
| Render.ArrowPath | graffle2svg/main.py:633-640 | without flips or rotation, the arrow is one closed path through the seven points its ratio and neck width give |
| Render.SubprocessShape | graffle2svg/main.py:650-663 | a subprocess emits exactly three elements: a rect and two lines |
| Render.SubprocessParts | graffle2svg/main.py:650-663 | without flips or rotation, a subprocess is its box without rounded corners, then the two open vertical lines a tenth of the width in from each side |
| Render.PolygonShape | graffle2svg/main.py:642-718 | a triangle or diamond emits exactly one element |
| Render.PolygonPath | graffle2svg/main.py:642-718 | without flips or rotation, each triangle and the diamond is one closed path through its own vertex list |
| Render.ShapedStep | graffle2svg/main.py:315-412 | a shaped graphic emits at most three elements and changes nothing but the layer; a missing Shape raises KeyError("Shape"); a shape outside the eleven known names emits nothing once the flips and rotation have been read |
| Render.RectDispatch | graffle2svg/main.py:326-410 | Rectangle and RoundRect draw `RectShape` over the parsed Bounds; Cloud draws a plain rect without corners over its box |
| Render.PolygonDispatch | graffle2svg/main.py:356-398 | each triangle name and Diamond draw `PolygonShape` for that name with the graphic's flips and rotation |
| Render.CurveDispatch | graffle2svg/main.py:374-404 | Circle, Bezier, AdjustableArrow and Subprocess draw `CircleShape`, `BezierShape`, `ArrowShape` and `SubprocessShape` |
| Render.CoordsEach | graffle2svg/main.py:206-208 | on success, one point per magnet, and point i is exactly what `parseCoords` reads from magnet i |
| Render.BarPosition | graffle2svg/main.py:247-252 | a bar position is read only when OrthogonalBarPosition is present |
| Render.LineStep | graffle2svg/main.py:244-269 | a line emits one element and changes only the innermost scope (the path drawn: `LinePath`) |
| Render.LinePath | graffle2svg/main.py:244-269 | a line sets fill "none" in the innermost scope and then draws exactly one open path through its parsed Points, in those scopes |
| Render.LineUnfilled | graffle2svg/main.py:244-269 | the line's path is drawn with fill "none" in its innermost scope |
| Render.Line | graffle2svg/main.py:759-771 | a tspan keeps its line's text and style at the text's x, at least one line height below y |
| Render.Lines | graffle2svg/main.py:753-765 | one tspan per RTF line; line i sits at y + 12(i+1) with the text's x, text and style |
| Render.PlaceText | graffle2svg/main.py:738-757 | a text emits one text element carrying the current font |
| Render.TextStep | graffle2svg/main.py:302-311 | a graphic's text appends exactly one text element and keeps scopes and definitions |
| Render.TextStepCases | graffle2svg/main.py:304-305 | the bounds are read before the font, and the text is placed only when both succeed |
| Render.TextPosition | graffle2svg/main.py:302-311 | the text starts at (x+Pad, y+VerticalPad), and line i sits at y+VerticalPad+12(i+1) |
| Render.TextUnpadded | graffle2svg/main.py:308-309 | without Pad and VerticalPad the text starts at the bounds' corner |
| Render.Visit | graffle2svg/main.py:224-312 | visiting a graphic leaves the scope stack as it found it, keeps everything already drawn, and registers only known definitions |
| Render.Draw | graffle2svg/main.py:227-311 | inside its own scope a graphic changes at most the innermost scope |
| Render.Dispatch | graffle2svg/main.py:230-299 | the class dispatch changes at most the innermost scope |
| Render.GroupStep | graffle2svg/main.py:271-297 | a group appends at most one element to the layer and leaves the scopes as found |
| Render.GroupAppendsOne | graffle2svg/main.py:271-297 | a group appends exactly one g, drawn in a new scope, holding its children walked in reversed order, and restores the layer |
| Render.UnknownClassDrawsNothing | graffle2svg/main.py:298-299 | an unknown class without Style or Text draws nothing and changes nothing |
| Render.WalkReversed | graffle2svg/main.py:271-297 | walking reversed children keeps the scopes and what was drawn |
| Render.WalkRevFrom | graffle2svg/main.py:271-297 | walking the first i children from the last keeps the scopes |
| Render.WalkRevFromReverse | graffle2svg/main.py:271-297 | walking from the end equals walking the reversed list |
| Render.WalkSeq | graffle2svg/main.py:224 | walking a list keeps the scopes and what was drawn |
| Render.WalkList | graffle2svg/main.py:222-224 | iterating a decoded value keeps the scopes and what was drawn |
| Render.Reverse | graffle2svg/main.py:282 | item i of the reversal is item n−1−i |
| Render.ReverseLast | graffle2svg/main.py:282 | the reversal starts with the last item |
| Render.RectCorner | graffle2svg/main.py:338-354 | without an ImageID the rect drawn is exactly the one at the first four bounds (x, y, width, height), with a corner radius exactly when the style's stroke has CornerRadius, and then that one |
| Render.ImagePastEnd | graffle2svg/main.py:331-333 | an image id at or past the end of the image list draws nothing |
| Render.ImageInRange | graffle2svg/main.py:328-337 | an id within the image list draws that image over the four bounds |
| Render.ImageFromEnd | graffle2svg/main.py:331-336 | a negative image id counts from the end of the image list |
| Render.CanvasStep | graffle2svg/main.py:115-143 | the version 5 canvas emits at most one element |
| Render.CanvasRect | graffle2svg/main.py:117-143 | a canvas colour draws one rect at the canvas origin, sized by the paper less its margins |
| Render.CanvasFirst | graffle2svg/main.py:115-146 | before version 6 the canvas rect is the first element drawn for the page |
| Render.BackgroundFirst | graffle2svg/main.py:107-146 | from version 6 on the background graphic is drawn first, before the graphics list |
| Render.ExtractPage | graffle2svg/main.py:107-146 | a page keeps the scopes and what was drawn |
| Render.DocDict | graffle2svg/main.py:95-104 | the top-level dict sets the file information and the image list (an empty list by default), then extracts `Sheets[page]` when there are Sheets (an index out of range raises its fault) and the dict itself otherwise; what was drawn is kept |
| Render.DocWalk | graffle2svg/main.py:78-104 | the document walk keeps the scopes and what was drawn |
| Render.DocFrom | graffle2svg/main.py:83-93 | the remaining children keep the scopes and what was drawn |
| Render.Convert | graffle2svg/main.py:70-75 | the output keeps the initial style, and only known definitions are emitted |
| Parser.GraffleParser.constructor | graffle2svg/main.py:40-62 | one scope with fill #fff and stroke #000000; no definitions, font or elements |
| Parser.GraffleParser.AddRect | graffle2svg/main.py:720-735 | appends one rect with the current scopes |
| Parser.GraffleParser.AddEllipse | graffle2svg/main.py:620-631 | appends the ellipse of the bounds |
| Parser.GraffleParser.AddImage | graffle2svg/main.py:696-706 | appends one image element |
| Parser.GraffleParser.AddPath | graffle2svg/main.py:670-688 | the layer becomes what `Render.AddPath` gives, or the same fault is raised |
| Parser.GraffleParser.AddText | graffle2svg/main.py:738-757 | appends one text element whose lines the loop places |
| Parser.GraffleParser.BoundsFrom | graffle2svg/main.py:304 | reads the Bounds entry as `extractBoundCOordinates` does |
| Parser.GraffleParser.AddImageRef | graffle2svg/main.py:328-337 | agrees with `Render.ImageStep` |
| Parser.GraffleParser.AddRectangle | graffle2svg/main.py:326-354 | agrees with `Render.RectShape` |
| Parser.GraffleParser.AddPolygon | graffle2svg/main.py:642-718 | agrees with `Render.PolygonShape` |
| Parser.GraffleParser.AddCircle | graffle2svg/main.py:374-380 | agrees with `Render.CircleShape` |
| Parser.GraffleParser.AddBezier | graffle2svg/main.py:594-618 | agrees with `Render.BezierShape` |
| Parser.GraffleParser.AddArrow | graffle2svg/main.py:633-640 | agrees with `Render.ArrowShape` |
| Parser.GraffleParser.AddSubprocess | graffle2svg/main.py:650-663 | agrees with `Render.SubprocessShape` |
| Parser.GraffleParser.AddShapedGraphic | graffle2svg/main.py:315-412 | agrees with `Render.ShapedStep` |
| Parser.GraffleParser.SetGraffleStyle | graffle2svg/main.py:420-482 | the innermost scope and required definitions become what `Render.StyleAt` gives |
| Parser.GraffleParser.SetGraffleFont | graffle2svg/main.py:484-510 | the current font becomes what `Styles.FontStep` gives, or the fault is raised |
| Parser.GraffleParser.AddLineGraphic | graffle2svg/main.py:244-269 | agrees with `Render.LineStep` |
| Parser.GraffleParser.DrawText | graffle2svg/main.py:302-311 | agrees with `Render.TextStep` |
| Parser.GraffleParser.AddTextAt | graffle2svg/main.py:307-311 | agrees with `Render.PlaceText` |
| Parser.GraffleParser.VisitGraphic | graffle2svg/main.py:224-312 | agrees with `Render.Visit` |
| Parser.GraffleParser.DrawGraphic | graffle2svg/main.py:227-311 | agrees with `Render.Draw` |
| Parser.GraffleParser.DispatchClass | graffle2svg/main.py:230-299 | agrees with `Render.Dispatch` |
| Parser.GraffleParser.AddGroup | graffle2svg/main.py:271-297 | agrees with `Render.GroupStep`; the current layer is restored afterwards |
| Parser.GraffleParser.Iterate | graffle2svg/main.py:222-297 | agrees with `Render.WalkList`, or with `Render.WalkReversed` for reversed children |
| Parser.GraffleParser.IterateBack | graffle2svg/main.py:222-295 | the loop over reversed children agrees with `Render.WalkRevFrom` from the end, proved by invariant |
| Parser.GraffleParser.IterateForward | graffle2svg/main.py:222-224 | the loop over a graphics list agrees with `Render.WalkSeq`, proved by invariant |
| Parser.GraffleParser.AddCanvas | graffle2svg/main.py:115-143 | agrees with `Render.CanvasStep` |
| Parser.GraffleParser.ExtractPage | graffle2svg/main.py:107-146 | agrees with `Render.ExtractPage` |
| Parser.GraffleParser.WalkGraffleDoc | graffle2svg/main.py:78-104 | the loop, the fileinfo and the imagelist agree with `Render.DocWalk` |
| Parser.GraffleParser.AddRequirements | graffle2svg/main.py:513-592 | appends exactly the registered definitions, in the fixed order |
| Parser.GraffleParser.WalkGraffle | graffle2svg/main.py:70-75 | walks the document, then appends the required definitions |
| Parser.Block | graffle2svg/main.py:514-530 | one `if` of `svg_add_requirements` appends the block exactly when it is registered, and nothing otherwise |
| Parser.BlocksAppendRequired | graffle2svg/main.py:513-592 | the sequence of `if`s appends `Required(order, registered)` |
| Parser.Run | graffle2svg/main.py:40-75 | constructing a parser and walking a document gives exactly `Render.Convert` |

## Left out

- The DOM is left out: `xml.dom.minidom` parsing, element creation and `toprettyxml` serialisation. The input is an element tree (`Plist.XmlNode`). The output is a sequence of element records per container.
- The layer is modelled as a value, so a nested `g` is a record holding its children. The DOM aliasing between `svg_current_layer` and the node appended to its parent is not modelled.
- `extractRTFString`, `fileinfo.FileInfo`, `str()` of a float, `"%f"` and the `geom` flips and rotation are not part of this model. Their code is not available, so they are parameters in `Render.Env`.
- `CascadingStyles` is not part of this model. The style is a sequence of scopes (maps from property to value), and the CSS text it makes of them is left out.
- Floating-point numbers are idealised as reals. Rounding is not modelled.
- The `print` diagnostics (main.py:242, 299, 332, 337 and 412) are left out. They only write to standard output. The `str()` inside the ones at main.py:337 and main.py:412 can raise, as the next line says.
- Python 2 `str()` of non-ASCII unicode text is left out. It raises UnicodeEncodeError in the image message at main.py:337, in the unknown-shape message at main.py:412, for the image href at main.py:704 and for the corner radius at main.py:731-732. The model returns Ok in those places: `Render.ImageInRange`, the unknown-shape clause of `Render.ShapedStep` and `Render.RectCorner`.
- The commented-out orthogonal-bar block (main.py:253-266) is a string literal that never runs, so it is left out. The bar position is still read with `float()`.
- The XML bodies of the marker and filter definitions are left out. Each block is modelled by its identifier.
- Plist.Items: iterating a non-empty dict gives TypeError in the model, instead of iterating over its keys. The walk only iterates lists of graphics and points.
- Plist.Show: `"%s"` is modelled only for text, booleans and integers. A dict or list used as a font family gives TypeError instead of its printed form.
- Plist.DecodeNode: follows the corrected first-child reading (see Findings). An empty `<string/>`, `<real/>` or `<integer/>` decodes to empty text, where main.py:161-162 raises AttributeError. `Plist.FirstChildAsWritten` models the code as written; the walk, and so `Parser.Run == Render.Convert`, uses the corrected reading.
- Plist.DecodeFirstChild: the same corrected reading. An empty `<key/>` (main.py:182) also gives the empty key instead of AttributeError.
- Styles.PatternStep: uses the intended comparison `int(pattern) == n` (see Findings), so patterns 1 and 2 give their dash arrays. As written (main.py:474-476) they never do; `Styles.PatternAsWritten` models that, and the walk, and so `Parser.Run == Render.Convert`, uses the corrected comparison.
- Strings.IsSpace: only ASCII white space is stripped. Python 2 `unicode.strip()`, `float()` and `int()` also skip U+0085, U+00A0, U+1680, U+2000 to U+200A, U+3000 and similar characters.
- Strings.ParseReal: only finite decimal literals are read. The texts "inf", "infinity" and "nan" that Python's `float()` accepts give ValueError.
- Strings.Join: carries no contract of its own. What `";".join` and `" ".join` promise is stated by `Strings.JoinEnds`, `Strings.Split` and `Strings.SplitJoin`, and the path data by `Geometry.PathData` and the lemmas after it.
- Coords.BoundsOf: states the faults for values that are not text. The value read from bounds text is stated on `Coords.Bounds` and `Coords.BoundsOfGraffleText`, not on `BoundsOf` itself.
- Non-text dict keys are left out. A `<key>` whose first child is not text is a key that no lookup by name can find.

## Findings

| source | as written | input that shows it | evidently intended | confidence | as-written member | corrected member |
|---|---|---|---|---|---|---|
| graffle2svg/main.py:472-477 | `pattern == 1` and `pattern == 2` compare the decoded Pattern with Python ints. An `<integer>` element decodes to its text, and text never equals an int, so no dash array is ever set. | a stroke `<key>Pattern</key><integer>1</integer>` | pattern 1 gives "3 3" and pattern 2 gives "5 5" | not executed | Styles.PatternNeverMatches | Styles.PatternDashes |
| graffle2svg/main.py:161-183 | a `<string>`, `<real>` or `<integer>` is decoded from its `firstChild`. An empty `<string/>` has none, so `None.nodeType` raises AttributeError and the document cannot be read. | `<dict><key>Text</key><string/></dict>` | an empty element decodes to empty text | not executed | Plist.EmptyStringAsWritten | Plist.DecodeEncode |
