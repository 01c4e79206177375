/** Python's `json.dumps` with its default settings (ASCII-only output, ", " and ": "
    separators) over the values of PyData, and the part of `json.loads` the cache needs:
    reading back a JSON array of strings. */
module Json {

  import opened Wrappers
  import opened Text
  import opened PyData

  // ------------------------------------------------------------------ hexadecimal

  function HexDigit(d: nat): (c: char)
    requires d < 16
  {
    if d < 10 then ('0' as int + d) as char else ('a' as int + d - 10) as char
  }

  /** A hexadecimal digit of either case. */
  function HexValue(c: char): (r: Option<nat>)
    ensures r.Some? ==> r.value < 16
  {
    if '0' <= c <= '9' then Some(c as int - '0' as int)
    else if 'a' <= c <= 'f' then Some(c as int - 'a' as int + 10)
    else if 'A' <= c <= 'F' then Some(c as int - 'A' as int + 10)
    else None
  }

  lemma HexDigitValue(d: nat)
    requires d < 16
    ensures HexValue(HexDigit(d)) == Some(d)
  {
  }

  /** Four lower-case hexadecimal digits, as in `é`. */
  function Hex4(n: nat): (r: string)
    requires n < 0x10000
    ensures |r| == 4
  {
    [HexDigit(n / 4096), HexDigit(n / 256 % 16), HexDigit(n / 16 % 16), HexDigit(n % 16)]
  }

  function ParseHex4(t: string): (r: Option<nat>)
    requires |t| == 4
    ensures r.Some? ==> r.value < 0x10000
  {
    match (HexValue(t[0]), HexValue(t[1]), HexValue(t[2]), HexValue(t[3]))
    case (Some(a), Some(b), Some(c), Some(d)) => Some(a * 4096 + b * 256 + c * 16 + d)
    case _ => None
  }

  lemma Hex4RoundTrip(n: nat)
    requires n < 0x10000
    ensures ParseHex4(Hex4(n)) == Some(n)
  {
    var q := n / 16;
    var q2 := q / 16;
    assert n == q * 16 + n % 16;
    assert q == q2 * 16 + q % 16;
    assert q2 == (q2 / 16) * 16 + q2 % 16;
    assert n / 256 == q2;
    assert n / 4096 == q2 / 16;
    HexDigitValue(n / 4096);
    HexDigitValue(n / 256 % 16);
    HexDigitValue(n / 16 % 16);
    HexDigitValue(n % 16);
  }

  // ------------------------------------------------------------------ string escaping

  predicate IsSurrogate(n: int) { 0xD800 <= n < 0xE000 }

  /** How `json.dumps` writes one character: quote, backslash and the five named control
      characters with a short escape; the rest of printable ASCII as it is; every other
      character as `\uXXXX`, or as a surrogate pair beyond U+FFFF. */
  function EscapeChar(c: char): (r: string)
    ensures |r| >= 1
  {
    if c == '"' then "\\\""
    else if c == '\\' then "\\\\"
    else if c == '\n' then "\\n"
    else if c == '\r' then "\\r"
    else if c == '\t' then "\\t"
    else if c == '\U{0008}' then "\\b"
    else if c == '\U{000C}' then "\\f"
    else if ' ' <= c <= '~' then [c]
    else if c as int < 0x10000 then "\\u" + Hex4(c as int)
    else
      var v := c as int - 0x10000;
      "\\u" + Hex4(0xD800 + v / 1024) + "\\u" + Hex4(0xDC00 + v % 1024)
  }

  function EscapeAll(s: string): (r: string)
  {
    if s == [] then [] else EscapeChar(s[0]) + EscapeAll(s[1..])
  }

  /** A JSON string literal. */
  function Quote(s: string): (r: string)
  {
    "\"" + EscapeAll(s) + "\""
  }

  // ------------------------------------------------------------------ json.dumps

  /** The parts separated by ", ". */
  function Join(parts: seq<string>): (r: string)
  {
    if parts == [] then ""
    else if |parts| == 1 then parts[0]
    else parts[0] + ", " + Join(parts[1..])
  }

  predicate AllSome(parts: seq<Option<string>>)
  {
    forall i :: 0 <= i < |parts| ==> parts[i].Some?
  }

  function Values(parts: seq<Option<string>>): (r: seq<string>)
    requires AllSome(parts)
    ensures |r| == |parts|
    ensures forall i :: 0 <= i < |parts| ==> r[i] == parts[i].value
  {
    seq(|parts|, i requires 0 <= i < |parts| => parts[i].value)
  }

  /** `json.dumps(v)`; None where Python raises TypeError (a UUID or a datetime anywhere
      inside the value). Infinite and not-a-number floats are written as JavaScript
      spells them, as Python does by default. */
  function Dumps(v: PyValue): (r: Option<string>)
    ensures v.PyStr? ==> r == Some(Quote(v.s))
    ensures v.PyUuid? || v.PyDateTime? ==> r.None?
  {
    match v
    case PyNone => Some("null")
    case PyBool(b) => Some(if b then "true" else "false")
    case PyInt(i) => Some(FormatInt(i))
    case PyFloat(t) =>
      Some(if t == "inf" then "Infinity" else if t == "-inf" then "-Infinity" else if t == "nan" then "NaN" else t)
    case PyStr(s) => Some(Quote(s))
    case PyUuid(_) => None
    case PyDateTime(_) => None
    case PyList(items) =>
      var parts := seq(|items|, i requires 0 <= i < |items| => Dumps(items[i]));
      if AllSome(parts) then Some("[" + Join(Values(parts)) + "]") else None
    case PyTuple(items) =>
      var parts := seq(|items|, i requires 0 <= i < |items| => Dumps(items[i]));
      if AllSome(parts) then Some("[" + Join(Values(parts)) + "]") else None
    case PyDict(es) =>
      var parts := seq(|es|, i requires 0 <= i < |es| =>
        match Dumps(es[i].1) case Some(t) => Some(Quote(es[i].0) + ": " + t) case None => None);
      if AllSome(parts) then Some("{" + Join(Values(parts)) + "}") else None
  }

  function StrValues(strs: seq<string>): (r: seq<PyValue>)
    ensures |r| == |strs|
    ensures forall i :: 0 <= i < |strs| ==> r[i] == PyStr(strs[i])
  {
    seq(|strs|, i requires 0 <= i < |strs| => PyStr(strs[i]))
  }

  function Quotes(strs: seq<string>): (r: seq<string>)
    ensures |r| == |strs|
    ensures forall i :: 0 <= i < |strs| ==> r[i] == Quote(strs[i])
  {
    seq(|strs|, i requires 0 <= i < |strs| => Quote(strs[i]))
  }

  /** A list of strings always encodes, as its quoted items between brackets. */
  lemma DumpsStrings(strs: seq<string>)
    ensures Dumps(PyList(StrValues(strs))) == Some("[" + Join(Quotes(strs)) + "]")
  {
    var items := StrValues(strs);
    var parts := seq(|items|, i requires 0 <= i < |items| => Dumps(items[i]));
    assert AllSome(parts);
    assert Values(parts) == Quotes(strs);
  }

  // ------------------------------------------------------------------ json.loads of a string array

  predicate IsJsonSpace(c: char) { c == ' ' || c == '\t' || c == '\n' || c == '\r' }

  function SkipWs(t: string): (r: string)
    ensures |r| <= |t|
    ensures r == [] || !IsJsonSpace(r[0])
  {
    if t != [] && IsJsonSpace(t[0]) then SkipWs(t[1..]) else t
  }

  function PrependChar(c: char, o: Option<(string, string)>): Option<(string, string)>
  {
    match o
    case None => None
    case Some((s, rest)) => Some(([c] + s, rest))
  }

  /** The character denoted by an escape sequence (what follows the backslash) and the
      text after it. A high surrogate must be followed by an escaped low surrogate; a
      lone surrogate is refused. */
  function ReadEscape(u: string): (r: Option<(char, string)>)
    ensures r.Some? ==> |r.value.1| < |u|
  {
    if u == [] then None
    else if u[0] == '"' then Some(('"', u[1..]))
    else if u[0] == '\\' then Some(('\\', u[1..]))
    else if u[0] == '/' then Some(('/', u[1..]))
    else if u[0] == 'b' then Some(('\U{0008}', u[1..]))
    else if u[0] == 'f' then Some(('\U{000C}', u[1..]))
    else if u[0] == 'n' then Some(('\n', u[1..]))
    else if u[0] == 'r' then Some(('\r', u[1..]))
    else if u[0] == 't' then Some(('\t', u[1..]))
    else if u[0] == 'u' && |u| >= 5 then
      match ParseHex4(u[1..5])
      case None => None
      case Some(h) =>
        if 0xD800 <= h < 0xDC00 then
          if |u| >= 11 && u[5] == '\\' && u[6] == 'u' then
            match ParseHex4(u[7..11])
            case Some(l) =>
              if 0xDC00 <= l < 0xE000 then
                Some(((0x10000 + (h - 0xD800) * 1024 + (l - 0xDC00)) as char, u[11..]))
              else None
            case None => None
          else None
        else if IsSurrogate(h) then None
        else Some((h as char, u[5..]))
    else None
  }

  /** The body of a string literal up to its closing quote: the decoded text and what
      follows the quote. Raw control characters are refused, as the strict decoder does. */
  function ParseBody(t: string): (r: Option<(string, string)>)
    ensures r.Some? ==> |r.value.1| < |t|
    decreases |t|
  {
    if t == [] then None
    else if t[0] == '"' then Some(([], t[1..]))
    else if t[0] == '\\' then
      match ReadEscape(t[1..])
      case None => None
      case Some((c, rest)) => PrependChar(c, ParseBody(rest))
    else if t[0] < ' ' then None
    else PrependChar(t[0], ParseBody(t[1..]))
  }

  /** The items of an array, after its '[' and the first item's leading blanks: strings
      separated by commas, up to the closing ']'. */
  function ParseItems(t: string): (r: Option<(seq<string>, string)>)
    decreases |t|
  {
    if t == [] || t[0] != '"' then None
    else
      match ParseBody(t[1..])
      case None => None
      case Some((s, r)) =>
        var r1 := SkipWs(r);
        if r1 != [] && r1[0] == ']' then Some(([s], r1[1..]))
        else if r1 != [] && r1[0] == ',' then
          match ParseItems(SkipWs(r1[1..]))
          case None => None
          case Some((items, rest)) => Some(([s] + items, rest))
        else None
  }

  /** `json.loads(t)` where `t` is expected to hold an array of strings; None for a
      malformed text (where Python raises JSONDecodeError). */
  function LoadsStrings(t: string): (r: Option<seq<string>>)
  {
    var t1 := SkipWs(t);
    if t1 == [] || t1[0] != '[' then None
    else
      var t2 := SkipWs(t1[1..]);
      if t2 != [] && t2[0] == ']' then
        (if SkipWs(t2[1..]) == [] then Some([]) else None)
      else
        match ParseItems(t2)
        case Some((items, rest)) => if SkipWs(rest) == [] then Some(items) else None
        case None => None
  }

  // ------------------------------------------------------------------ round trip

  lemma ReadEscapeSurrogates(c: char, rest: string)
    requires c as int >= 0x10000
    ensures
      var v := c as int - 0x10000;
      ReadEscape("u" + Hex4(0xD800 + v / 1024) + "\\u" + Hex4(0xDC00 + v % 1024) + rest) == Some((c, rest))
  {
    var v := c as int - 0x10000;
    var hi := 0xD800 + v / 1024;
    var lo := 0xDC00 + v % 1024;
    var u := "u" + Hex4(hi) + "\\u" + Hex4(lo) + rest;
    assert u[1..5] == Hex4(hi);
    assert u[7..11] == Hex4(lo);
    assert u[11..] == rest;
    Hex4RoundTrip(hi);
    Hex4RoundTrip(lo);
    assert 0x10000 + (hi - 0xD800) * 1024 + (lo - 0xDC00) == c as int;
  }

  predicate ShortEscaped(c: char)
  {
    c == '"' || c == '\\' || c == '\n' || c == '\r' || c == '\t' || c == '\U{0008}' || c == '\U{000C}'
  }

  lemma ParseBodyShortEscape(c: char, tail: string)
    requires ShortEscaped(c)
    ensures ParseBody(EscapeChar(c) + tail) == PrependChar(c, ParseBody(tail))
  {
    var t := EscapeChar(c) + tail;
    assert |EscapeChar(c)| == 2 && EscapeChar(c)[0] == '\\';
    assert t[1..] == [EscapeChar(c)[1]] + tail;
  }

  lemma ParseBodyBmpEscape(c: char, tail: string)
    requires !ShortEscaped(c) && !(' ' <= c <= '~') && c as int < 0x10000
    ensures ParseBody(EscapeChar(c) + tail) == PrependChar(c, ParseBody(tail))
  {
    var t := EscapeChar(c) + tail;
    var u := t[1..];
    assert u == "u" + Hex4(c as int) + tail;
    assert u[1..5] == Hex4(c as int);
    assert u[5..] == tail;
    Hex4RoundTrip(c as int);
    assert ReadEscape(u) == Some((c, tail));
  }

  lemma ParseBodyAstralEscape(c: char, tail: string)
    requires c as int >= 0x10000
    ensures ParseBody(EscapeChar(c) + tail) == PrependChar(c, ParseBody(tail))
  {
    var v := c as int - 0x10000;
    var t := EscapeChar(c) + tail;
    var u := t[1..];
    assert u == "u" + Hex4(0xD800 + v / 1024) + "\\u" + Hex4(0xDC00 + v % 1024) + tail;
    ReadEscapeSurrogates(c, tail);
  }

  /** Reading one escaped character back yields it, and the rest of the text is untouched. */
  lemma ParseBodyEscapeChar(c: char, tail: string)
    ensures ParseBody(EscapeChar(c) + tail) == PrependChar(c, ParseBody(tail))
  {
    if ShortEscaped(c) {
      ParseBodyShortEscape(c, tail);
    } else if ' ' <= c <= '~' {
      var t := EscapeChar(c) + tail;
      assert t[0] == c && t[1..] == tail;
    } else if c as int < 0x10000 {
      ParseBodyBmpEscape(c, tail);
    } else {
      ParseBodyAstralEscape(c, tail);
    }
  }

  lemma {:induction false} ParseBodyEscapeAll(s: string, tail: string)
    ensures ParseBody(EscapeAll(s) + "\"" + tail) == Some((s, tail))
    decreases |s|
  {
    if s == [] {
      assert EscapeAll(s) + "\"" + tail == "\"" + tail;
    } else {
      assert EscapeAll(s) + "\"" + tail == EscapeChar(s[0]) + (EscapeAll(s[1..]) + "\"" + tail);
      ParseBodyEscapeChar(s[0], EscapeAll(s[1..]) + "\"" + tail);
      ParseBodyEscapeAll(s[1..], tail);
      assert [s[0]] + s[1..] == s;
    }
  }

  function PrependItem(s: string, o: Option<(seq<string>, string)>): Option<(seq<string>, string)>
  {
    match o
    case None => None
    case Some((items, rest)) => Some(([s] + items, rest))
  }

  lemma ParseItemsLast(s: string, tail: string)
    ensures ParseItems(Quote(s) + "]" + tail) == Some(([s], tail))
  {
    var x := "]" + tail;
    var t := Quote(s) + x;
    assert t == Quote(s) + "]" + tail;
    assert t[0] == '"' && t[1..] == EscapeAll(s) + "\"" + x;
    ParseBodyEscapeAll(s, x);
    assert SkipWs(x) == x;
    assert x[1..] == tail;
  }

  lemma ParseItemsUnfold(t: string, s: string, x: string)
    requires t != [] && t[0] == '"' && ParseBody(t[1..]) == Some((s, x))
    requires x != [] && x[0] == ','
    ensures ParseItems(t) == PrependItem(s, ParseItems(SkipWs(x[1..])))
  {
  }

  lemma QuoteSplit(s: string, x: string)
    ensures (Quote(s) + x)[0] == '"'
    ensures (Quote(s) + x)[1..] == EscapeAll(s) + "\"" + x
  {
  }

  lemma ParseItemsNext(s: string, y: string)
    requires y != [] && y[0] == '"'
    ensures ParseItems(Quote(s) + ", " + y) == PrependItem(s, ParseItems(y))
  {
    var x := ", " + y;
    QuoteSplit(s, x);
    ParseBodyEscapeAll(s, x);
    SkipWsComma(y);
    ParseItemsUnfold(Quote(s) + x, s, x);
    assert Quote(s) + x == Quote(s) + ", " + y;
  }

  lemma SkipWsComma(y: string)
    requires y != [] && y[0] == '"'
    ensures SkipWs(", " + y) == ", " + y
    ensures SkipWs((", " + y)[1..]) == y
  {
    assert (", " + y)[1..] == " " + y;
    assert (" " + y)[1..] == y;
  }

  lemma {:induction false} ParseItemsJoin(strs: seq<string>, tail: string)
    requires strs != []
    ensures ParseItems(Join(Quotes(strs)) + "]" + tail) == Some((strs, tail))
    decreases |strs|
  {
    var q := Quotes(strs);
    if |strs| == 1 {
      ParseItemsLast(strs[0], tail);
      assert [strs[0]] == strs;
    } else {
      assert q[1..] == Quotes(strs[1..]);
      var y := Join(Quotes(strs[1..])) + "]" + tail;
      assert Join(q) + "]" + tail == Quote(strs[0]) + ", " + y;
      assert Quotes(strs[1..])[0] == Quote(strs[1]);
      assert y[0] == '"';
      ParseItemsNext(strs[0], y);
      ParseItemsJoin(strs[1..], tail);
      assert [strs[0]] + strs[1..] == strs;
    }
  }

  /** A list of strings written by `json.dumps` is read back by `json.loads` unchanged. */
  lemma LoadsDumpsStrings(strs: seq<string>)
    ensures Dumps(PyList(StrValues(strs))).Some?
    ensures LoadsStrings(Dumps(PyList(StrValues(strs))).value) == Some(strs)
  {
    DumpsStrings(strs);
    var t := "[" + Join(Quotes(strs)) + "]";
    if strs == [] {
      assert t == "[]";
    } else {
      ParseItemsJoin(strs, "");
      assert t[1..] == Join(Quotes(strs)) + "]" + "";
      assert Quotes(strs)[0] == Quote(strs[0]);
      assert t[1] == '"';
      assert SkipWs(t) == t;
      assert SkipWs(t[1..]) == t[1..];
      assert SkipWs("") == "";
    }
  }
}
