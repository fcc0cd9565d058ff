/** The plist reader of GraffleParser (ReturnGraffleNode, ReturnGraffleDict,
    ReturnGraffleArray): a DOM tree decoded into Python values, and the
    Python operations the converter applies to those values (d.get, d[k],
    float(), int(), ==, len, indexing, iteration). */
module Plist {
  import opened Base
  import opened Strings

  /** A DOM node: a text node, a CDATA section, an element with its local
      name and children, or any other node (a comment, a processing
      instruction) known only by its DOM node type. Adjacent text nodes are
      kept apart, as the DOM may keep them. */
  datatype XmlNode =
    | Text(text: string)
    | CData(data: string)
    | Element(name: string, children: seq<XmlNode>)
    | Other(nodeType: int)

  const ELEMENT_NODE := 1
  const CDATA_SECTION_NODE := 4

  /** A decoded value. <string>, <real> and <integer> all decode to their
      text; a node the reader does not recognise decodes to its DOM node type
      (a number). Number also stands for the integer literals the converter
      supplies as defaults (a Pad of 0, the channels of black). Only entries
      whose key decodes to text are kept in a Dict: no lookup by name can
      reach any other entry. */
  datatype Value =
    | Str(s: string)
    | Bool(b: bool)
    | Dict(entries: map<string, Value>)
    | Array(items: seq<Value>)
    | Number(code: int)

  /** The `key` variable of ReturnGraffleDict: None before the first <key>,
      then whatever the last <key> decoded to. */
  datatype DictKey =
    | Unset                 // None: entries stored under it cannot be reached by name
    | Named(name: string)   // a text key
    | Unnamed               // a bool or a node type: hashable, but no lookup by name reaches it
    | Unhashable            // a dict or a list: storing under it raises TypeError

  function KeyOf(v: Value): DictKey
  {
    match v
    case Str(s) => Named(s)
    case Dict(_) => Unhashable
    case Array(_) => Unhashable
    case _ => Unnamed
  }

  /** Text.wholeText of the first node: the text of the run of text and
      CDATA nodes that starts the sequence. */
  function LeadingText(nodes: seq<XmlNode>): string
  {
    if nodes == [] then []
    else if nodes[0].Text? then nodes[0].text + LeadingText(nodes[1..])
    else if nodes[0].CData? then nodes[0].data + LeadingText(nodes[1..])
    else []
  }

  /** ReturnGraffleNode(n.firstChild) as the code is written: an element
      without children has firstChild None, and None.nodeType raises. */
  function FirstChildAsWritten(n: XmlNode): (r: Result<Value>)
    requires n.Element?
    ensures n.children == [] ==> r == Err(AttributeError)
    ensures n.children != [] ==> r == FirstChildValue(n)
  {
    if n.children == [] then Err(AttributeError) else FirstChildValue(n)
  }

  /** ReturnGraffleNode(n.firstChild), used for <string>, <real>, <integer>
      and <key>, corrected so that an empty element holds the empty text. */
  function FirstChildValue(n: XmlNode): (r: Result<Value>)
    requires n.Element?
    ensures r.Err? ==> r.fault == TypeError
    ensures n.children == [] || n.children[0].Text? ==> r.Ok? && r.value.Str?
    decreases n, 0, 0
  {
    var ch := n.children;
    if ch == [] then Ok(Str([]))
    else if ch[0].Text? then Ok(Str(LeadingText(ch)))
    else NodeValue(ch[0])
  }

  /** ReturnGraffleNode. Only an unhashable dictionary key makes it fail;
      a <dict> gives a dictionary and an <array> a list. */
  function NodeValue(n: XmlNode): (r: Result<Value>)
    ensures r.Err? ==> r.fault == TypeError
    ensures !n.Element? ==> r.Ok?
    ensures n.Element? && n.name == "dict" && r.Ok? ==> r.value.Dict?
    ensures n.Element? && n.name == "array" && r.Ok? ==> r.value.Array?
    decreases n, 1, 0
  {
    match n
    case Text(t) => Ok(Str(t))
    case CData(_) => Ok(Number(CDATA_SECTION_NODE))
    case Other(k) => Ok(Number(k))
    case Element(name, _) =>
      if name == "dict" then DictFrom(n, 0, Unset, map[])
      else if name == "array" then ArrayFrom(n, 0, [])
      else if name == "true" then Ok(Bool(true))
      else if name == "false" then Ok(Bool(false))
      else if name == "string" || name == "real" || name == "integer" then FirstChildValue(n)
      else Ok(Number(ELEMENT_NODE))
  }

  /** ReturnGraffleDict from child i on: text nodes are skipped, a <key>
      sets the current key, any other node is decoded and stored under it
      (a later value for the same key replaces the earlier one). */
  function DictFrom(n: XmlNode, i: nat, key: DictKey, acc: map<string, Value>): (r: Result<Value>)
    requires n.Element? && i <= |n.children|
    ensures r.Ok? ==> r.value.Dict? && acc.Keys <= r.value.entries.Keys
    ensures r.Err? ==> r.fault == TypeError
    decreases n, 0, |n.children| - i
  {
    if i == |n.children| then Ok(Dict(acc))
    else
      var e := n.children[i];
      if e.Text? then DictFrom(n, i + 1, key, acc)
      else if e.Element? && e.name == "key" then
        var k :- FirstChildValue(e);
        DictFrom(n, i + 1, KeyOf(k), acc)
      else
        var v :- NodeValue(e);
        match key
        case Named(s) => DictFrom(n, i + 1, key, acc[s := v])
        case Unhashable => Err(TypeError)
        case _ => DictFrom(n, i + 1, key, acc)
  }

  /** ReturnGraffleArray from child i on: every node but text, decoded, in order. */
  function ArrayFrom(n: XmlNode, i: nat, acc: seq<Value>): (r: Result<Value>)
    requires n.Element? && i <= |n.children|
    ensures r.Ok? ==> r.value.Array? && acc <= r.value.items
    ensures r.Err? ==> r.fault == TypeError
    decreases n, 0, |n.children| - i
  {
    if i == |n.children| then Ok(Array(acc))
    else
      var e := n.children[i];
      if e.Text? then ArrayFrom(n, i + 1, acc)
      else
        var v :- NodeValue(e);
        ArrayFrom(n, i + 1, acc + [v])
  }

  /** ReturnGraffleNode, a recursive method. */
  method DecodeNode(n: XmlNode) returns (r: Result<Value>)
    ensures r == NodeValue(n)
    decreases n, 1, 0
  {
    match n
    case Text(t) => r := Ok(Str(t));
    case CData(_) => r := Ok(Number(CDATA_SECTION_NODE));
    case Other(k) => r := Ok(Number(k));
    case Element(name, ch) =>
      if name == "dict" {
        r := DecodeDict(n);
      } else if name == "array" {
        r := DecodeArray(n);
      } else if name == "true" {
        r := Ok(Bool(true));
      } else if name == "false" {
        r := Ok(Bool(false));
      } else if name == "string" || name == "real" || name == "integer" {
        r := DecodeFirstChild(n);
      } else {
        r := Ok(Number(ELEMENT_NODE));
      }
  }

  method DecodeFirstChild(n: XmlNode) returns (r: Result<Value>)
    requires n.Element?
    ensures r == FirstChildValue(n)
    decreases n, 0, 0
  {
    if n.children == [] {
      r := Ok(Str([]));
    } else if n.children[0].Text? {
      r := Ok(Str(LeadingText(n.children)));
    } else {
      r := DecodeNode(n.children[0]);
    }
  }

  /** ReturnGraffleDict: the loop over the children, updating `key` and
      `retdict`. */
  method DecodeDict(n: XmlNode) returns (r: Result<Value>)
    requires n.Element?
    ensures r == DictFrom(n, 0, Unset, map[])
    decreases n, 0, |n.children| + 1
  {
    var key := Unset;
    var retdict: map<string, Value> := map[];
    var i := 0;
    while i < |n.children|
      invariant i <= |n.children|
      invariant DictFrom(n, i, key, retdict) == DictFrom(n, 0, Unset, map[])
    {
      var e := n.children[i];
      if e.Element? && e.name == "key" {
        var k := DecodeFirstChild(e);
        if k.Err? {
          return Err(k.fault);
        }
        key := KeyOf(k.value);
      } else if !e.Text? {
        var v := DecodeNode(e);
        if v.Err? {
          return Err(v.fault);
        }
        match key
        case Named(s) => retdict := retdict[s := v.value];
        case Unhashable => return Err(TypeError);
        case _ =>
      }
      i := i + 1;
    }
    r := Ok(Dict(retdict));
  }

  /** ReturnGraffleArray: the loop over the children, appending to `retlist`. */
  method DecodeArray(n: XmlNode) returns (r: Result<Value>)
    requires n.Element?
    ensures r == ArrayFrom(n, 0, [])
    decreases n, 0, |n.children| + 1
  {
    var retlist: seq<Value> := [];
    var i := 0;
    while i < |n.children|
      invariant i <= |n.children|
      invariant ArrayFrom(n, i, retlist) == ArrayFrom(n, 0, [])
    {
      var e := n.children[i];
      if !e.Text? {
        var v := DecodeNode(e);
        if v.Err? {
          return Err(v.fault);
        }
        retlist := retlist + [v.value];
      }
      i := i + 1;
    }
    r := Ok(Array(retlist));
  }

  // ----- the writer the reader is the inverse of -----

  /** Values plist markup can carry: everything but bare node types. */
  ghost predicate Encodable(v: Value)
  {
    match v
    case Number(_) => false
    case Array(a) => forall i :: 0 <= i < |a| ==> Encodable(a[i])
    case Dict(m) => forall k :: k in m ==> Encodable(m[k])
    case _ => true
  }

  /** The text children of an element holding `s`: none when s is empty. */
  function TextChildren(s: string): seq<XmlNode>
  {
    if s == [] then [] else [Text(s)]
  }

  ghost function PickKey(keys: set<string>): (k: string)
    requires keys != {}
    ensures k in keys
  {
    var k :| k in keys; k
  }

  /** The plist markup of a value. */
  ghost function Encode(v: Value): XmlNode
    requires Encodable(v)
    decreases v, 1
  {
    match v
    case Str(s) => Element("string", TextChildren(s))
    case Bool(b) => Element(if b then "true" else "false", [])
    case Array(a) => Element("array", EncodeItems(v, 0))
    case Dict(m) => Element("dict", EncodeEntries(v, m.Keys))
  }

  ghost function EncodeItems(v: Value, i: nat): (r: seq<XmlNode>)
    requires v.Array? && Encodable(v) && i <= |v.items|
    ensures |r| == |v.items| - i
    ensures forall j :: 0 <= j < |r| ==> r[j] == Encode(v.items[i + j])
    decreases v, 0, |v.items| - i
  {
    if i == |v.items| then [] else [Encode(v.items[i])] + EncodeItems(v, i + 1)
  }

  ghost function EncodeEntries(v: Value, keys: set<string>): (r: seq<XmlNode>)
    requires v.Dict? && Encodable(v) && keys <= v.entries.Keys
    decreases v, 0, |keys|
  {
    if keys == {} then []
    else
      var k := PickKey(keys);
      [Element("key", TextChildren(k)), Encode(v.entries[k])] + EncodeEntries(v, keys - {k})
  }

  /** Decoding undoes encoding: every value plist markup can carry is read
      back as itself. */
  lemma {:induction false} DecodeEncode(v: Value)
    requires Encodable(v)
    ensures NodeValue(Encode(v)) == Ok(v)
    decreases v, 1
  {
    match v
    case Str(s) =>
      assert LeadingText([Text(s)]) == s;
    case Bool(b) =>
    case Array(a) =>
      var n := Encode(v);
      assert n.children == EncodeItems(v, 0);
      DecodeItems(v, n, 0);
      assert a[..0] == [] && a[..|a|] == a;
    case Dict(m) =>
      var n := Encode(v);
      DecodeEntries(v, n, 0, m.Keys, Unset, map[]);
  }

  lemma {:induction false} DecodeItems(v: Value, n: XmlNode, i: nat)
    requires v.Array? && Encodable(v) && n.Element? && n.children == EncodeItems(v, 0)
    requires i <= |v.items|
    ensures ArrayFrom(n, i, v.items[..i]) == Ok(v)
    decreases v, 0, |v.items| - i
  {
    var a := v.items;
    if i == |a| {
      assert a[..i] == a;
    } else {
      assert n.children[i] == Encode(a[i]);
      DecodeEncode(a[i]);
      assert a[..i] + [a[i]] == a[..i + 1];
      DecodeItems(v, n, i + 1);
    }
  }

  /** Part way through an encoded dictionary: the children from i on encode
      the pending keys, and the entries decoded so far are the rest of v. */
  ghost predicate Pending(v: Value, n: XmlNode, i: nat, keys: set<string>, acc: map<string, Value>)
  {
    v.Dict? && Encodable(v) && n.Element? && keys <= v.entries.Keys
    && i <= |n.children| && n.children[i..] == EncodeEntries(v, keys)
    && keys !! acc.Keys && keys + acc.Keys == v.entries.Keys
    && (forall k :: k in acc ==> acc[k] == v.entries[k])
  }

  lemma {:induction false} DecodeEntries(v: Value, n: XmlNode, i: nat, keys: set<string>,
                                         key: DictKey, acc: map<string, Value>)
    requires Pending(v, n, i, keys, acc)
    ensures DictFrom(n, i, key, acc) == Ok(v)
    decreases v, 0, |keys|
  {
    if keys == {} {
      assert acc == v.entries;
    } else {
      var k := PickKey(keys);
      DecodeEncode(v.entries[k]);
      EntryAdvance(v, n, i, keys, key, acc);
      DecodeEntries(v, n, i + 2, keys - {k}, Named(k), acc[k := v.entries[k]]);
    }
  }

  /** Reading the next encoded entry moves its key from the pending keys to
      the decoded entries. */
  lemma EntryAdvance(v: Value, n: XmlNode, i: nat, keys: set<string>,
                     key: DictKey, acc: map<string, Value>)
    requires Pending(v, n, i, keys, acc) && keys != {}
    requires NodeValue(Encode(v.entries[PickKey(keys)])) == Ok(v.entries[PickKey(keys)])
    ensures var k := PickKey(keys); var acc' := acc[k := v.entries[k]];
      i + 2 <= |n.children| && Pending(v, n, i + 2, keys - {k}, acc')
      && DictFrom(n, i, key, acc) == DictFrom(n, i + 2, Named(k), acc')
  {
    var m := v.entries;
    var k := PickKey(keys);
    EntriesHead(v, n, i, keys);
    DictEntryStep(n, i, key, acc, k, m[k]);
    MoveKey(m, keys, acc, k);
  }

  /** Moving key k from the pending keys to the decoded entries keeps them a
      partition of m's keys, with the decoded entries agreeing with m. */
  lemma MoveKey(m: map<string, Value>, keys: set<string>, acc: map<string, Value>, k: string)
    requires k in keys && keys !! acc.Keys && keys + acc.Keys == m.Keys
    requires forall j :: j in acc ==> acc[j] == m[j]
    ensures (keys - {k}) !! acc[k := m[k]].Keys && (keys - {k}) + acc[k := m[k]].Keys == m.Keys
    ensures forall j :: j in acc[k := m[k]] ==> acc[k := m[k]][j] == m[j]
  {
  }

  lemma EntriesHead(v: Value, n: XmlNode, i: nat, keys: set<string>)
    requires v.Dict? && Encodable(v) && n.Element? && keys <= v.entries.Keys && keys != {}
    requires i <= |n.children| && n.children[i..] == EncodeEntries(v, keys)
    ensures i + 2 <= |n.children|
    ensures n.children[i] == Element("key", TextChildren(PickKey(keys)))
    ensures n.children[i + 1] == Encode(v.entries[PickKey(keys)])
    ensures n.children[i + 2..] == EncodeEntries(v, keys - {PickKey(keys)})
  {
    var k := PickKey(keys);
    var rest := EncodeEntries(v, keys - {k});
    assert n.children[i..] == [Element("key", TextChildren(k)), Encode(v.entries[k])] + rest;
    assert n.children[i + 2..] == n.children[i..][2..];
  }

  /** One encoded entry: a <key> holding k, then a node decoding to x. */
  lemma DictEntryStep(n: XmlNode, i: nat, key: DictKey, acc: map<string, Value>, k: string, x: Value)
    requires n.Element? && i + 2 <= |n.children|
    requires n.children[i] == Element("key", TextChildren(k))
    requires Encodable(x) && n.children[i + 1] == Encode(x) && NodeValue(Encode(x)) == Ok(x)
    ensures DictFrom(n, i, key, acc) == DictFrom(n, i + 2, Named(k), acc[k := x])
  {
    assert FirstChildValue(n.children[i]) == Ok(Str(k)) by {
      assert LeadingText([Text(k)]) == k;
    }
  }

  /** As written, the reader cannot read back the empty string: the writer
      emits <string/> with no child, and the reader asks for its first child. */
  lemma EmptyStringAsWritten()
    ensures Encode(Str([])) == Element("string", [])
    ensures FirstChildAsWritten(Encode(Str([]))) == Err(AttributeError)
    ensures NodeValue(Encode(Str([]))) == Ok(Str([]))
  {
  }

  // ----- Python operations on decoded values -----

  /** v[k] with a text key. */
  function Index(v: Value, k: string): (r: Result<Value>)
    ensures r.Ok? <==> v.Dict? && k in v.entries
  {
    if !v.Dict? then Err(TypeError)
    else if k in v.entries then Ok(v.entries[k])
    else Err(KeyError(k))
  }

  /** float(v): text is parsed (failing with ValueError), a bool or a node
      type converts, anything else is a TypeError. */
  function Float(v: Value): (r: Result<real>)
    ensures r.Err? ==> (v.Str? && r.fault == ValueError) || (!v.Str? && r.fault == TypeError)
    ensures v.Bool? || v.Number? ==> r.Ok?
  {
    match v
    case Str(s) => ParseReal(s)
    case Bool(b) => Ok(if b then 1.0 else 0.0)
    case Number(k) => Ok(k as real)
    case _ => Err(TypeError)
  }

  /** int(v): text is parsed (failing with ValueError), a bool or a node
      type converts, anything else is a TypeError. */
  function Int(v: Value): (r: Result<int>)
    ensures r.Err? ==> (v.Str? && r.fault == ValueError) || (!v.Str? && r.fault == TypeError)
    ensures v.Bool? || v.Number? ==> r.Ok?
  {
    match v
    case Str(s) => ParseInt(s)
    case Bool(b) => Ok(if b then 1 else 0)
    case Number(k) => Ok(k)
    case _ => Err(TypeError)
  }

  /** v == n for a Python int n: only a bool or a node type can equal a
      number (text never does). */
  predicate EqualsInt(v: Value, n: int)
    ensures EqualsInt(v, n) ==> v.Bool? || v.Number?
  {
    match v
    case Bool(b) => (if b then 1 else 0) == n
    case Number(k) => k == n
    case _ => false
  }

  /** A value equal to the int n converts to n under both int() and
      float(). */
  lemma EqualsIntConverts(v: Value, n: int)
    requires EqualsInt(v, n)
    ensures Int(v) == Ok(n) && Float(v) == Ok(n as real)
  {
  }

  /** len(v): defined for text, lists and dictionaries only. */
  function Len(v: Value): (r: Result<nat>)
    ensures r.Ok? <==> v.Str? || v.Array? || v.Dict?
    ensures r.Err? ==> r.fault == TypeError
    ensures v.Array? ==> r == Ok(|v.items|)
  {
    match v
    case Str(s) => Ok(|s|)
    case Array(a) => Ok(|a|)
    case Dict(m) => Ok(|m.Keys|)
    case _ => Err(TypeError)
  }

  /** v[i] with an integer index; negative indices count from the end. */
  function Item(v: Value, i: int): (r: Result<Value>)
    ensures v.Array? ==> (r.Ok? <==> -|v.items| <= i < |v.items|)
    ensures v.Array? && r.Ok? ==> r.value in v.items
    ensures v.Str? ==> (r.Ok? <==> -|v.s| <= i < |v.s|)
    ensures v.Str? && r.Ok? ==> r.value.Str? && |r.value.s| == 1 && r.value.s[0] in v.s
    ensures !v.Array? && !v.Str? ==> r.Err? && r.fault != IndexError
  {
    match v
    case Array(a) =>
      if 0 <= i < |a| then Ok(a[i])
      else if -|a| <= i < 0 then Ok(a[|a| + i])
      else Err(IndexError)
    case Str(s) =>
      if 0 <= i < |s| then Ok(Str([s[i]]))
      else if -|s| <= i < 0 then Ok(Str([s[|s| + i]]))
      else Err(IndexError)
    case Dict(_) => Err(KeyError(IntText(i)))
    case _ => Err(TypeError)
  }

  /** The items of `for x in v`, for a list; a string iterates over its
      characters; an empty dict gives nothing. */
  function Items(v: Value): (r: Result<seq<Value>>)
    ensures v.Array? ==> r == Ok(v.items)
    ensures v.Str? ==> r.Ok? && |r.value| == |v.s|
    ensures r.Err? ==> r.fault == TypeError && !v.Array? && !v.Str?
  {
    match v
    case Array(a) => Ok(a)
    case Str(s) => Ok(seq(|s|, k requires 0 <= k < |s| => Str([s[k]])))
    case Dict(m) => if m == map[] then Ok([]) else Err(TypeError)
    case _ => Err(TypeError)
  }

  /** "%s" % v for a scalar value. */
  function Show(v: Value): (r: Result<string>)
    ensures r.Ok? <==> v.Str? || v.Bool? || v.Number?
    ensures v.Str? ==> r == Ok(v.s)
  {
    match v
    case Str(s) => Ok(s)
    case Bool(b) => Ok(if b then "True" else "False")
    case Number(k) => Ok(IntText(k))
    case _ => Err(TypeError)
  }
}
