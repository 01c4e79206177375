/** Character classes, decimal integers, Python's whitespace strip, substring search
    and the byte-wise string order Redis uses to break score ties. */
module Text {

  import opened Wrappers

  // ---------------------------------------------------------------- characters

  predicate IsAsciiDigit(c: char) { '0' <= c <= '9' }
  predicate IsAsciiUpper(c: char) { 'A' <= c <= 'Z' }
  predicate IsAsciiLower(c: char) { 'a' <= c <= 'z' }
  predicate IsAsciiLetter(c: char) { IsAsciiUpper(c) || IsAsciiLower(c) }
  predicate IsAscii(c: char) { c as int < 128 }
  predicate IsAsciiString(s: string) { forall i :: 0 <= i < |s| ==> IsAscii(s[i]) }
  predicate AllDigits(s: string) { forall i :: 0 <= i < |s| ==> IsAsciiDigit(s[i]) }

  /** `str.lower()` restricted to ASCII: upper-case letters map to lower case, every other
      character is left as it is. */
  function LowerChar(c: char): (r: char)
    ensures IsAsciiUpper(c) ==> IsAsciiLower(r) && r as int == c as int + 32
    ensures !IsAsciiUpper(c) ==> r == c
  {
    if IsAsciiUpper(c) then (c as int + 32) as char else c
  }

  function UpperChar(c: char): (r: char)
    ensures IsAsciiLower(c) ==> IsAsciiUpper(r) && r as int + 32 == c as int
    ensures !IsAsciiLower(c) ==> r == c
  {
    if IsAsciiLower(c) then (c as int - 32) as char else c
  }

  function Lower(s: string): (r: string)
    ensures |r| == |s|
    ensures forall i :: 0 <= i < |s| ==> r[i] == LowerChar(s[i])
  {
    seq(|s|, i requires 0 <= i < |s| => LowerChar(s[i]))
  }

  lemma {:induction false} LowerIdempotent(s: string)
    ensures Lower(Lower(s)) == Lower(s)
  {
    forall i | 0 <= i < |s| ensures Lower(Lower(s))[i] == Lower(s)[i] {
      var c := s[i];
      assert Lower(s)[i] == LowerChar(c);
      if IsAsciiUpper(c) {
        assert !IsAsciiUpper(LowerChar(c));
      }
    }
  }

  /** `str.isspace()`: the characters Python treats as whitespace. */
  predicate IsPySpace(c: char)
  {
    c == '\t' || c == '\n' || c == '\U{000B}' || c == '\U{000C}' || c == '\r'
    || ('\U{001C}' <= c <= '\U{001F}') || c == ' ' || c == '\U{0085}' || c == '\U{00A0}'
    || c == '\U{1680}' || ('\U{2000}' <= c <= '\U{200A}') || c == '\U{2028}' || c == '\U{2029}'
    || c == '\U{202F}' || c == '\U{205F}' || c == '\U{3000}'
  }

  function StripLeft(s: string): (r: string)
    ensures |r| <= |s| && r == s[|s| - |r|..]
    ensures r == [] || !IsPySpace(r[0])
    ensures forall i :: 0 <= i < |s| - |r| ==> IsPySpace(s[i])
  {
    if |s| > 0 && IsPySpace(s[0]) then StripLeft(s[1..]) else s
  }

  function StripRight(s: string): (r: string)
    ensures |r| <= |s| && r == s[..|r|]
    ensures r == [] || !IsPySpace(r[|r| - 1])
    ensures forall i :: |r| <= i < |s| ==> IsPySpace(s[i])
  {
    if |s| > 0 && IsPySpace(s[|s| - 1]) then StripRight(s[..|s| - 1]) else s
  }

  /** `str.strip()` with no argument. */
  function Strip(s: string): string
  {
    StripRight(StripLeft(s))
  }

  /** What strip returns: a contiguous piece of the input, with whitespace only outside it
      and no whitespace at either end. */
  lemma StripIsTrimmedSlice(s: string)
    ensures exists a, b :: TrimmedSlice(s, a, b, Strip(s))
    ensures Strip(s) == [] || (!IsPySpace(Strip(s)[0]) && !IsPySpace(Strip(s)[|Strip(s)| - 1]))
  {
    var l := StripLeft(s);
    var r := StripRight(l);
    var a := |s| - |l|;
    var b := a + |r|;
    assert r == s[a..b];
    forall i | b <= i < |s| ensures IsPySpace(s[i]) {
      assert s[i] == l[i - a];
    }
    assert r == Strip(s);
    assert TrimmedSlice(s, a, b, Strip(s));
    if r != [] {
      assert r[0] == l[0];
    }
  }

  predicate TrimmedSlice(s: string, a: int, b: int, r: string)
  {
    && 0 <= a <= b <= |s| && r == s[a..b]
    && (forall i :: 0 <= i < a ==> IsPySpace(s[i]))
    && (forall i :: b <= i < |s| ==> IsPySpace(s[i]))
  }

  // ---------------------------------------------------------------- substrings

  predicate MatchesAt(s: string, w: string, i: int)
  {
    0 <= i && i + |w| <= |s| && s[i..i + |w|] == w
  }

  /** The regular-expression search for a literal word: some window of `s` equals `w`. */
  ghost predicate Occurs(w: string, s: string)
  {
    exists i :: MatchesAt(s, w, i)
  }

  /** The scan that decides `Occurs`. */
  function HasSubstring(s: string, w: string): (b: bool)
    ensures b <==> Occurs(w, s)
    decreases |s|
  {
    if |s| < |w| then
      assert forall i :: !MatchesAt(s, w, i);
      false
    else if s[..|w|] == w then
      assert MatchesAt(s, w, 0);
      true
    else
      var rest := HasSubstring(s[1..], w);
      if rest then
        var i :| MatchesAt(s[1..], w, i);
        SliceOfTail(s, i + 1, |w|);
        assert MatchesAt(s, w, i + 1);
        true
      else
        assert !Occurs(w, s) by {
          forall i | 0 <= i && i + |w| <= |s| ensures !MatchesAt(s, w, i) {
            if i > 0 {
              SliceOfTail(s, i, |w|);
              assert !MatchesAt(s[1..], w, i - 1);
            } else {
              assert s[..|w|] == s[0..0 + |w|];
            }
          }
        }
        false
  }

  /** A window of `s` starting past its head is the same window of `s[1..]`, one earlier. */
  lemma SliceOfTail(s: string, i: int, n: nat)
    requires 1 <= i && i + n <= |s|
    ensures s[i..i + n] == s[1..][i - 1..i - 1 + n]
  {
    var a, b := s[i..i + n], s[1..][i - 1..i - 1 + n];
    forall j | 0 <= j < n ensures a[j] == b[j] {
      assert a[j] == s[i + j] && b[j] == s[1..][i - 1 + j];
    }
    assert a == b;
  }

  // ---------------------------------------------------------------- decimal integers

  const INT64_MIN: int := -0x8000_0000_0000_0000
  const INT64_MAX: int := 0x7FFF_FFFF_FFFF_FFFF

  predicate InInt64(i: int) { INT64_MIN <= i <= INT64_MAX }

  function DigitChar(d: nat): (c: char)
    requires d < 10
    ensures IsAsciiDigit(c) && c as int - '0' as int == d
  {
    ('0' as int + d) as char
  }

  function DigitValue(c: char): (d: nat)
    requires IsAsciiDigit(c)
    ensures d < 10
  {
    c as int - '0' as int
  }

  /** `n` written with four digits, leading zeros kept: `%04d`. */
  function FourDigits(n: int): (s: string)
    requires 0 <= n < 10000
    ensures |s| == 4 && AllDigits(s)
  {
    [DigitChar(n / 1000), DigitChar(n / 100 % 10), DigitChar(n / 10 % 10), DigitChar(n % 10)]
  }

  /** Python's `str(n)` for a natural number: decimal digits, no leading zero. */
  function FormatNat(n: nat): (s: string)
    ensures |s| >= 1 && AllDigits(s)
    ensures s[0] == '0' <==> n == 0
    ensures n == 0 ==> s == "0"
  {
    if n < 10 then [DigitChar(n)] else FormatNat(n / 10) + [DigitChar(n % 10)]
  }

  /** Python's `str(i)`, which is also how Redis and redis-py write an integer. */
  function FormatInt(i: int): (s: string)
    ensures |s| >= 1
    ensures i >= 0 ==> AllDigits(s)
    ensures i < 0 ==> s[0] == '-' && AllDigits(s[1..])
  {
    if i < 0 then "-" + FormatNat(-i) else FormatNat(i)
  }

  function ParseDigits(s: string): nat
    requires AllDigits(s)
  {
    if |s| == 0 then 0 else 10 * ParseDigits(s[..|s| - 1]) + DigitValue(s[|s| - 1])
  }

  predicate CanonicalPositive(s: string)
  {
    |s| >= 1 && AllDigits(s) && s[0] != '0'
  }

  /** Redis's strict string-to-64-bit-integer conversion: an optional '-', digits with no
      leading zero ("0" itself excepted), no '+', no blanks, and within 64 bits. */
  function ParseInt(s: string): (r: Option<int>)
    ensures r.Some? ==> InInt64(r.value)
  {
    if s == "0" then Some(0)
    else if |s| >= 2 && s[0] == '-' && CanonicalPositive(s[1..]) then
      var v := -(ParseDigits(s[1..]) as int);
      if InInt64(v) then Some(v) else None
    else if CanonicalPositive(s) then
      var v := ParseDigits(s) as int;
      if InInt64(v) then Some(v) else None
    else None
  }

  lemma {:induction false} ParseFormatNat(n: nat)
    ensures ParseDigits(FormatNat(n)) == n
  {
    if n >= 10 {
      var s := FormatNat(n);
      assert s[..|s| - 1] == FormatNat(n / 10);
      ParseFormatNat(n / 10);
    }
  }

  /** Reading back what was written: every 64-bit integer survives the round trip. */
  lemma ParseFormatInt(i: int)
    requires InInt64(i)
    ensures ParseInt(FormatInt(i)) == Some(i)
  {
    if i < 0 {
      ParseFormatNat(-i);
      assert FormatInt(i)[1..] == FormatNat(-i);
    } else if i > 0 {
      ParseFormatNat(i);
    }
  }

  lemma FormatIntInjective(i: int, j: int)
    requires InInt64(i) && InInt64(j) && FormatInt(i) == FormatInt(j)
    ensures i == j
  {
    ParseFormatInt(i);
    ParseFormatInt(j);
  }

  // ---------------------------------------------------------------- string order

  /** The order Redis uses for equal scores: lexicographic by character code, which for
      UTF-8 agrees with comparing the encoded bytes. */
  predicate StrLess(a: string, b: string)
    decreases |a|
  {
    if |a| == 0 then |b| > 0
    else if |b| == 0 then false
    else if a[0] != b[0] then a[0] < b[0]
    else StrLess(a[1..], b[1..])
  }

  lemma {:induction false} StrLessIrreflexive(a: string)
    ensures !StrLess(a, a)
    decreases |a|
  {
    if |a| > 0 { StrLessIrreflexive(a[1..]); }
  }

  lemma {:induction false} StrLessTransitive(a: string, b: string, c: string)
    requires StrLess(a, b) && StrLess(b, c)
    ensures StrLess(a, c)
    decreases |a|
  {
    if |a| > 0 && |b| > 0 && |c| > 0 && a[0] == b[0] && b[0] == c[0] {
      StrLessTransitive(a[1..], b[1..], c[1..]);
    }
  }

  lemma {:induction false} StrLessTotal(a: string, b: string)
    requires a != b
    ensures StrLess(a, b) || StrLess(b, a)
    decreases |a|
  {
    if |a| > 0 && |b| > 0 && a[0] == b[0] {
      assert a == [a[0]] + a[1..] && b == [b[0]] + b[1..];
      StrLessTotal(a[1..], b[1..]);
    }
  }

  lemma StrLessAsymmetric(a: string, b: string)
    requires StrLess(a, b)
    ensures !StrLess(b, a)
  {
    if StrLess(b, a) {
      StrLessTransitive(a, b, a);
      StrLessIrreflexive(a);
    }
  }
}
