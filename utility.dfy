/** `generate_unique_username`: lower-case the name, turn spaces into underscores, then
    drop every character outside `[a-zA-Z0-9_]`. Lower-casing is ASCII here. */
module Usernames {

  import opened Text

  predicate IsWordChar(c: char)
  {
    IsAsciiLetter(c) || IsAsciiDigit(c) || c == '_'
  }

  /** What a username may hold: `[a-z0-9_]`. */
  predicate IsUsernameChar(c: char)
  {
    IsAsciiLower(c) || IsAsciiDigit(c) || c == '_'
  }

  /** `s.replace(" ", "_")`. */
  function ReplaceSpaces(s: string): (r: string)
    ensures |r| == |s|
    ensures forall i :: 0 <= i < |s| ==> r[i] == if s[i] == ' ' then '_' else s[i]
  {
    seq(|s|, i requires 0 <= i < |s| => if s[i] == ' ' then '_' else s[i])
  }

  /** `re.sub(r"[^a-zA-Z0-9_]", "", s)`. */
  function KeepWordChars(s: string): (r: string)
    ensures |r| <= |s|
    ensures forall i :: 0 <= i < |r| ==> IsWordChar(r[i])
  {
    if s == [] then [] else (if IsWordChar(s[0]) then [s[0]] else []) + KeepWordChars(s[1..])
  }

  /** generate_unique_username. */
  function GenerateUniqueUsername(baseName: string): (r: string)
    ensures |r| <= |baseName|
    ensures forall i :: 0 <= i < |r| ==> IsUsernameChar(r[i])
  {
    var r := KeepWordChars(ReplaceSpaces(Lower(baseName)));
    assert forall i :: 0 <= i < |r| ==> IsUsernameChar(r[i]) by {
      NoUpperSurvives(ReplaceSpaces(Lower(baseName)));
    }
    r
  }

  lemma {:induction false} NoUpperSurvives(s: string)
    requires forall i :: 0 <= i < |s| ==> !IsAsciiUpper(s[i])
    ensures forall i :: 0 <= i < |KeepWordChars(s)| ==> !IsAsciiUpper(KeepWordChars(s)[i])
  {
    if s != [] {
      NoUpperSurvives(s[1..]);
    }
  }

  /** What one input character becomes: a space an underscore, a word character its lower
      case, anything else nothing. */
  function CharResult(c: char): (r: string)
    ensures |r| <= 1
  {
    if c == ' ' then "_" else if IsWordChar(c) then [LowerChar(c)] else ""
  }

  /** The username of a concatenation is the concatenation of the usernames: each character
      is handled on its own, and what is kept stays in its original order. */
  lemma {:induction false} UsernameOfConcat(a: string, b: string)
    ensures GenerateUniqueUsername(a + b) == GenerateUniqueUsername(a) + GenerateUniqueUsername(b)
  {
    assert Lower(a + b) == Lower(a) + Lower(b);
    assert ReplaceSpaces(Lower(a) + Lower(b)) == ReplaceSpaces(Lower(a)) + ReplaceSpaces(Lower(b));
    KeepConcat(ReplaceSpaces(Lower(a)), ReplaceSpaces(Lower(b)));
  }

  lemma {:induction false} KeepConcat(a: string, b: string)
    ensures KeepWordChars(a + b) == KeepWordChars(a) + KeepWordChars(b)
  {
    if a != [] {
      KeepConcat(a[1..], b);
      assert (a + b)[1..] == a[1..] + b;
    } else {
      assert a + b == b;
    }
  }

  /** One character on its own: spaces become underscores rather than being dropped. */
  lemma UsernameOfChar(c: char)
    ensures GenerateUniqueUsername([c]) == CharResult(c)
  {
    assert Lower([c]) == [LowerChar(c)];
    if IsAsciiUpper(c) {
      assert IsWordChar(LowerChar(c));
    }
  }

  /** Applying it twice gives what applying it once gave. */
  lemma {:induction false} UsernameIdempotent(s: string)
    ensures GenerateUniqueUsername(GenerateUniqueUsername(s)) == GenerateUniqueUsername(s)
    decreases |s|
  {
    if s != [] {
      var c := s[0];
      assert s == [c] + s[1..];
      UsernameOfConcat([c], s[1..]);
      UsernameIdempotent(s[1..]);
      UsernameOfChar(c);
      var head := CharResult(c);
      UsernameOfConcat(head, GenerateUniqueUsername(s[1..]));
      if head != [] {
        UsernameOfChar(head[0]);
        assert head == [head[0]];
        assert IsUsernameChar(head[0]);
      } else {
        assert head + GenerateUniqueUsername(s[1..]) == GenerateUniqueUsername(s[1..]);
      }
    } else {
      assert GenerateUniqueUsername([]) == [];
    }
  }
}
