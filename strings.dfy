/** The Python text operations the converter relies on: str.strip(), the
    slice s[1:-1], str.split(","), str.join, str.replace of one character,
    int() and float() applied to text, and the "%d" and "%02x" formats. */
module Strings {
  import opened Base

  /** The characters str.strip() removes (ASCII whitespace). */
  predicate IsSpace(c: char) {
    c == ' ' || c == '\t' || c == '\n' || c == '\r' || c == '\U{000B}' || c == '\U{000C}'
  }

  function StripLeft(s: string): (r: string)
    ensures |r| <= |s| && r == s[|s| - |r|..]
    ensures forall k :: 0 <= k < |s| - |r| ==> IsSpace(s[k])
    ensures r == [] || !IsSpace(r[0])
  {
    if s != [] && IsSpace(s[0]) then StripLeft(s[1..]) else s
  }

  function StripRight(s: string): (r: string)
    ensures |r| <= |s| && r == s[..|r|]
    ensures forall k :: |r| <= k < |s| ==> IsSpace(s[k])
    ensures r == [] || !IsSpace(r[|r| - 1])
  {
    if s != [] && IsSpace(s[|s| - 1]) then StripRight(s[..|s| - 1]) else s
  }

  /** str.strip(): whitespace removed at both ends. The result is the
      slice of s starting at its first non-whitespace character and ending at
      its last one; everything outside that slice is whitespace. */
  function Strip(s: string): (r: string)
    ensures var i := |s| - |StripLeft(s)|;
      i + |r| <= |s| && r == s[i..i + |r|]
      && (forall k :: 0 <= k < i ==> IsSpace(s[k]))
      && (forall k :: i + |r| <= k < |s| ==> IsSpace(s[k]))
    ensures r == [] || (!IsSpace(r[0]) && !IsSpace(r[|r| - 1]))
  {
    StripRight(StripLeft(s))
  }

  /** Text already free of whitespace at both ends is left as it is. */
  lemma StripTrimmed(s: string)
    requires s == [] || (!IsSpace(s[0]) && !IsSpace(s[|s| - 1]))
    ensures Strip(s) == s
  {
  }

  /** Leading whitespace makes no difference to strip(). */
  lemma StripLeadingSpace(c: char, s: string)
    requires IsSpace(c)
    ensures Strip([c] + s) == Strip(s)
  {
    assert ([c] + s)[1..] == s;
  }

  /** s[1:-1]: everything but the first and the last character. */
  function Inner(s: string): (r: string)
    ensures |s| >= 2 ==> |r| == |s| - 2 && forall k :: 0 <= k < |r| ==> r[k] == s[k + 1]
    ensures |s| < 2 ==> r == []
  {
    if |s| >= 2 then s[1..|s| - 1] else []
  }

  /** The number of occurrences of c in s. */
  function Count(s: string, c: char): nat
  {
    if s == [] then 0 else (if s[0] == c then 1 else 0) + Count(s[1..], c)
  }

  lemma {:induction false} CountAppend(a: string, b: string, c: char)
    ensures Count(a + b, c) == Count(a, c) + Count(b, c)
  {
    if a != [] {
      assert (a + b)[1..] == a[1..] + b;
      CountAppend(a[1..], b, c);
    } else {
      assert a + b == b;
    }
  }

  lemma {:induction false} CountAbsent(s: string, c: char)
    requires c !in s
    ensures Count(s, c) == 0
  {
    if s != [] {
      assert c !in s[1..];
      CountAbsent(s[1..], c);
    }
  }

  /** str.join: the parts with sep between neighbours. */
  function Join(parts: seq<string>, sep: string): string
  {
    if |parts| == 0 then []
    else if |parts| == 1 then parts[0]
    else parts[0] + sep + Join(parts[1..], sep)
  }

  /** A join starts with its first part and ends with its last one. */
  lemma {:induction false} JoinEnds(parts: seq<string>, sep: string)
    requires parts != []
    ensures parts[0] <= Join(parts, sep)
    ensures var last := parts[|parts| - 1]; var r := Join(parts, sep);
      |last| <= |r| && r[|r| - |last|..] == last
  {
    if |parts| > 1 {
      JoinEnds(parts[1..], sep);
      var r := Join(parts, sep);
      var t := Join(parts[1..], sep);
      assert r == parts[0] + sep + t;
      assert parts[1..][|parts[1..]| - 1] == parts[|parts| - 1];
      assert r[|r| - |t|..] == t;
    }
  }

  /** s.split(sep) for a one-character separator: every field, empty ones
      included, so that joining the fields back with sep gives s again. */
  function Split(s: string, sep: char): (parts: seq<string>)
    ensures |parts| == Count(s, sep) + 1
    ensures forall i :: 0 <= i < |parts| ==> sep !in parts[i]
    ensures Join(parts, [sep]) == s
  {
    if s == [] then [[]]
    else
      var rest := Split(s[1..], sep);
      if s[0] == sep then
        assert ([[]] + rest)[1..] == rest;
        [[]] + rest
      else
        assert |rest| > 1 ==> ([[s[0]] + rest[0]] + rest[1..])[1..] == rest[1..];
        assert |rest| > 1 ==> Join(rest, [sep]) == rest[0] + [sep] + Join(rest[1..], [sep]);
        [[s[0]] + rest[0]] + rest[1..]
  }

  /** A field free of the separator is split off whole. */
  lemma {:induction false} SplitField(a: string, b: string, sep: char)
    requires sep !in a
    ensures Split(a + [sep] + b, sep) == [a] + Split(b, sep)
  {
    if a == [] {
      assert a + [sep] + b == [sep] + b;
      assert ([sep] + b)[1..] == b;
    } else {
      assert (a + [sep] + b)[1..] == a[1..] + [sep] + b;
      SplitField(a[1..], b, sep);
      assert [a[0]] + a[1..] == a;
    }
  }

  lemma {:induction false} SplitWhole(a: string, sep: char)
    requires sep !in a
    ensures Split(a, sep) == [a]
  {
    if a != [] {
      SplitWhole(a[1..], sep);
      assert [a[0]] + a[1..] == a;
    }
  }

  /** Splitting undoes joining when no part holds the separator. */
  lemma {:induction false} SplitJoin(parts: seq<string>, sep: char)
    requires |parts| >= 1 && forall i :: 0 <= i < |parts| ==> sep !in parts[i]
    ensures Split(Join(parts, [sep]), sep) == parts
  {
    if |parts| == 1 {
      SplitWhole(parts[0], sep);
    } else {
      SplitJoin(parts[1..], sep);
      SplitField(parts[0], Join(parts[1..], [sep]), sep);
      assert [parts[0]] + parts[1..] == parts;
    }
  }

  /** bnd.replace(c, ""): every occurrence of c removed. */
  function Remove(s: string, c: char): (r: string)
    ensures c !in r
    ensures |r| == |s| - Count(s, c)
    ensures c !in s ==> r == s
  {
    if s == [] then []
    else (if s[0] == c then [] else [s[0]]) + Remove(s[1..], c)
  }

  // ----- decimal digits -----

  predicate IsDigit(c: char) { '0' <= c <= '9' }

  predicate AllDigits(s: string) { forall k :: 0 <= k < |s| ==> IsDigit(s[k]) }

  function DigitChar(d: nat): (c: char)
    requires d < 10
    ensures IsDigit(c)
  {
    ('0' as int + d) as char
  }

  /** The number a run of decimal digits denotes. */
  function DigitsValue(s: string): nat
    requires AllDigits(s)
  {
    if s == [] then 0 else 10 * DigitsValue(s[..|s| - 1]) + (s[|s| - 1] as int - '0' as int)
  }

  /** "%d" of a natural number: decimal digits without leading zeros, which
      read back as the number. */
  function NatText(n: nat): (s: string)
    ensures |s| >= 1 && AllDigits(s) && DigitsValue(s) == n
    ensures |s| > 1 ==> s[0] != '0'
  {
    if n < 10 then [DigitChar(n)]
    else
      var s := NatText(n / 10) + [DigitChar(n % 10)];
      assert s[..|s| - 1] == NatText(n / 10);
      s
  }

  /** "%d" of an integer. */
  function IntText(i: int): string
  {
    if i < 0 then "-" + NatText(-i) else NatText(i)
  }

  function Pow10(n: nat): (p: nat)
    ensures p >= 1
  {
    if n == 0 then 1 else 10 * Pow10(n - 1)
  }

  function Pow10Real(e: int): (p: real)
    ensures p > 0.0
  {
    if e >= 0 then Pow10(e) as real else 1.0 / (Pow10(-e) as real)
  }

  /** int(text): optional whitespace, an optional sign, at least one digit. */
  function ParseInt(s: string): (r: Result<int>)
    ensures r.Err? ==> r.fault == ValueError
  {
    var t := Strip(s);
    if |t| > 1 && (t[0] == '-' || t[0] == '+') && AllDigits(t[1..]) then
      Ok(if t[0] == '-' then -(DigitsValue(t[1..]) as int) else DigitsValue(t[1..]))
    else if |t| > 0 && AllDigits(t) then Ok(DigitsValue(t))
    else Err(ValueError)
  }

  /** "%d" text reads back through int() as the same integer. */
  lemma IntTextRoundTrip(i: int)
    ensures ParseInt(IntText(i)) == Ok(i)
  {
    var t := IntText(i);
    StripTrimmed(t);
    if i < 0 {
      assert t[1..] == NatText(-i);
    }
  }

  /** The value a mantissa m / 10^k carries, with its sign. */
  function Mantissa(neg: bool, m: nat, k: nat): real
  {
    var x := m as real / Pow10(k) as real;
    if neg then -x else x
  }

  /** Where float() is in its text: before the number, after its sign, in
      the digits before the point, right after a point with no digit before
      it, in the fraction (m / 10^k so far), right after the exponent mark,
      after the exponent's sign, in the exponent's digits, or in the
      whitespace after a complete number. */
  datatype FloatState =
    | Lead
    | Signed(neg: bool)
    | Whole(neg: bool, m: nat)
    | Dot(neg: bool)
    | Frac(neg: bool, m: nat, k: nat)
    | ExpMark(neg: bool, m: nat, k: nat)
    | ExpSigned(neg: bool, m: nat, k: nat, eneg: bool)
    | ExpDigits(neg: bool, m: nat, k: nat, eneg: bool, e: nat)
    | Trail(v: real)

  /** The number read so far, when the text may end here. */
  function Finish(st: FloatState): (r: Result<real>)
    ensures r.Err? ==> r.fault == ValueError
    ensures r.Ok? <==> st.Whole? || st.Frac? || st.ExpDigits? || st.Trail?
  {
    match st
    case Whole(neg, m) => Ok(Mantissa(neg, m, 0))
    case Frac(neg, m, k) => Ok(Mantissa(neg, m, k))
    case ExpDigits(neg, m, k, eneg, e) => Ok(Mantissa(neg, m, k) * Pow10Real(if eneg then -(e as int) else e))
    case Trail(v) => Ok(v)
    case _ => Err(ValueError)
  }

  function DigitOf(c: char): nat
    requires IsDigit(c)
  {
    c as int - '0' as int
  }

  /** float() reading one more character. */
  function Step(st: FloatState, c: char): (r: Result<FloatState>)
    ensures r.Err? ==> r.fault == ValueError
  {
    match st
    case Lead =>
      if IsSpace(c) then Ok(Lead)
      else if c == '+' || c == '-' then Ok(Signed(c == '-'))
      else if IsDigit(c) then Ok(Whole(false, DigitOf(c)))
      else if c == '.' then Ok(Dot(false))
      else Err(ValueError)
    case Signed(neg) =>
      if IsDigit(c) then Ok(Whole(neg, DigitOf(c)))
      else if c == '.' then Ok(Dot(neg))
      else Err(ValueError)
    case Whole(neg, m) =>
      if IsDigit(c) then Ok(Whole(neg, 10 * m + DigitOf(c)))
      else if c == '.' then Ok(Frac(neg, m, 0))
      else if c == 'e' || c == 'E' then Ok(ExpMark(neg, m, 0))
      else if IsSpace(c) then Ok(Trail(Mantissa(neg, m, 0)))
      else Err(ValueError)
    case Dot(neg) =>
      if IsDigit(c) then Ok(Frac(neg, DigitOf(c), 1)) else Err(ValueError)
    case Frac(neg, m, k) =>
      if IsDigit(c) then Ok(Frac(neg, 10 * m + DigitOf(c), k + 1))
      else if c == 'e' || c == 'E' then Ok(ExpMark(neg, m, k))
      else if IsSpace(c) then Ok(Trail(Mantissa(neg, m, k)))
      else Err(ValueError)
    case ExpMark(neg, m, k) =>
      if c == '+' || c == '-' then Ok(ExpSigned(neg, m, k, c == '-'))
      else if IsDigit(c) then Ok(ExpDigits(neg, m, k, false, DigitOf(c)))
      else Err(ValueError)
    case ExpSigned(neg, m, k, eneg) =>
      if IsDigit(c) then Ok(ExpDigits(neg, m, k, eneg, DigitOf(c))) else Err(ValueError)
    case ExpDigits(neg, m, k, eneg, e) =>
      if IsDigit(c) then Ok(ExpDigits(neg, m, k, eneg, 10 * e + DigitOf(c)))
      else if IsSpace(c) then Ok(Trail(Finish(st).value))
      else Err(ValueError)
    case Trail(v) =>
      if IsSpace(c) then Ok(Trail(v)) else Err(ValueError)
  }

  /** float() reading the rest of its text from a given state. */
  function Scan(t: string, st: FloatState): (r: Result<real>)
    ensures r.Err? ==> r.fault == ValueError
  {
    if t == [] then Finish(st)
    else
      var st' :- Step(st, t[0]);
      Scan(t[1..], st')
  }

  /** float(text) for finite decimal literals, exactly (reals stand for
      floats): optional whitespace, an optional sign, digits with at most
      one point and at least one digit, an optional exponent, optional
      whitespace. */
  function ParseReal(s: string): (r: Result<real>)
    ensures r.Err? ==> r.fault == ValueError
  {
    Scan(s, Lead)
  }

  /** A digit in front of a run of digits counts for 10^(length of the run). */
  lemma {:induction false} DigitsValueFront(c: char, t: string)
    requires IsDigit(c) && AllDigits(t)
    ensures AllDigits([c] + t)
    ensures DigitsValue([c] + t) == DigitOf(c) * Pow10(|t|) + DigitsValue(t)
  {
    assert AllDigits([c] + t);
    if t != [] {
      var u := t[..|t| - 1];
      assert ([c] + t)[..|t|] == [c] + u;
      DigitsValueFront(c, u);
    }
  }

  /** One digit read in the digits-before-the-point state. */
  lemma ScanWholeDigit(c: char, t: string, neg: bool, m: nat)
    requires IsDigit(c)
    ensures Scan([c] + t, Whole(neg, m)) == Scan(t, Whole(neg, 10 * m + DigitOf(c)))
  {
    assert ([c] + t)[1..] == t;
  }

  lemma ShiftDigit(m: nat, d: nat, p: nat)
    ensures (10 * m + d) * p == m * (10 * p) + d * p
  {
    calc {
      (10 * m + d) * p;
      (10 * m) * p + d * p;
      m * (10 * p) + d * p;
    }
  }

  /** Digits read after digits: the value m * 10^|t| + digits, in the
      digits-before-the-point state. */
  lemma {:induction false} ScanDigits(t: string, neg: bool, m: nat)
    requires AllDigits(t)
    ensures Scan(t, Whole(neg, m)) == Finish(Whole(neg, m * Pow10(|t|) + DigitsValue(t)))
  {
    if t != [] {
      var c, u := t[0], t[1..];
      var d, p := DigitOf(c), Pow10(|u|);
      assert t == [c] + u;
      ScanWholeDigit(c, u, neg, m);
      DigitsValueFront(c, u);
      ScanDigits(u, neg, 10 * m + d);
      assert Pow10(|t|) == 10 * p;
      ShiftDigit(m, d, p);
    }
  }

  /** A run of digits read from the start or after a sign is the whole
      number it denotes. */
  lemma ScanDigitRun(u: string, start: FloatState, neg: bool)
    requires |u| >= 1 && AllDigits(u)
    requires start == Signed(neg) || (start == Lead && !neg)
    ensures Scan(u, start) == Finish(Whole(neg, DigitsValue(u)))
  {
    var c := u[0];
    assert u == [c] + u[1..];
    assert Step(start, c) == Ok(Whole(neg, DigitOf(c)));
    assert Scan(u, start) == Scan(u[1..], Whole(neg, DigitOf(c)));
    DigitsValueFront(c, u[1..]);
    ScanDigits(u[1..], neg, DigitOf(c));
  }

  /** "%d" text reads back through float() as the same number. */
  lemma RealOfIntText(i: int)
    ensures ParseReal(IntText(i)) == Ok(i as real)
  {
    var t := IntText(i);
    var n := if i < 0 then -i else i;
    var u := NatText(n);
    assert Mantissa(i < 0, n, 0) == i as real;
    if i < 0 {
      assert t == "-" + u && t[1..] == u;
      assert Scan(t, Lead) == Scan(u, Signed(true));
      ScanDigitRun(u, Signed(true), true);
    } else {
      ScanDigitRun(u, Lead, false);
    }
  }

  /** float() ignores whitespace in front of the number. */
  lemma RealLeadingSpace(c: char, s: string)
    requires IsSpace(c)
    ensures ParseReal([c] + s) == ParseReal(s)
  {
    assert ([c] + s)[1..] == s;
  }

  // ----- hexadecimal -----

  predicate IsHexDigit(c: char) { '0' <= c <= '9' || 'a' <= c <= 'f' }

  predicate AllHex(s: string) { forall k :: 0 <= k < |s| ==> IsHexDigit(s[k]) }

  function HexChar(d: nat): (c: char)
    requires d < 16
    ensures IsHexDigit(c)
  {
    if d < 10 then DigitChar(d) else ('a' as int + d - 10) as char
  }

  function HexDigitValue(c: char): (d: nat)
    requires IsHexDigit(c)
    ensures d < 16
  {
    if c <= '9' then c as int - '0' as int else c as int - 'a' as int + 10
  }

  /** The number a run of lower-case hexadecimal digits denotes. */
  function HexValue(s: string): nat
    requires AllHex(s)
  {
    if s == [] then 0 else 16 * HexValue(s[..|s| - 1]) + HexDigitValue(s[|s| - 1])
  }

  /** The lower-case hexadecimal digits of n, without leading zeros. */
  function HexDigits(n: nat): (s: string)
    ensures |s| >= 1 && AllHex(s) && HexValue(s) == n
    ensures n < 16 ==> |s| == 1
    ensures n < 256 ==> |s| <= 2
  {
    if n < 16 then
      assert HexDigitValue(HexChar(n)) == n;
      [HexChar(n)]
    else
      var s := HexDigits(n / 16) + [HexChar(n % 16)];
      assert s[..|s| - 1] == HexDigits(n / 16);
      assert HexDigitValue(HexChar(n % 16)) == n % 16;
      s
  }

  /** "%02x" % n: at least two hexadecimal digits, zero-padded; a negative
      number is written with a minus sign, which counts towards the width. */
  function Hex02(n: int): (s: string)
    ensures 0 <= n < 256 ==> |s| == 2 && AllHex(s) && HexValue(s) == n
    ensures n < 0 ==> |s| >= 2 && s[0] == '-'
  {
    if n < 0 then "-" + HexDigits(-n)
    else
      var h := HexDigits(n);
      if |h| < 2 then
        assert ("0" + h)[..1] == "0";
        "0" + h
      else h
  }
}
