/** The string checks and transforms of the validators module: length, username, email,
    phone number and password checks, file-extension extraction, the restricted-word
    matcher and RediSearch escaping. `convert_for_redis` lives with the Python values it
    converts, as `PyData.ConvertEntries`. Case folding, `\d` and letters are ASCII here. */
module Validators {

  import opened Wrappers
  import opened Text

  /** A check either passes or raises `ValidationException(detail)`, status 400. */
  datatype Verdict = Pass | Fail(detail: string)

  // ------------------------------------------------------------------ validate_length

  function LengthMessage(fieldName: string, minLen: int, maxLen: int): string
  {
    fieldName + " must be between " + FormatInt(minLen) + " and " + FormatInt(maxLen) + " characters."
  }

  /** validate_length: the length must lie within both bounds, inclusive. */
  function ValidateLength(field: string, minLen: int, maxLen: int, fieldName: string): (r: Verdict)
    ensures r.Pass? <==> minLen <= |field| <= maxLen
    ensures r.Fail? ==> r.detail == LengthMessage(fieldName, minLen, maxLen)
  {
    if minLen <= |field| <= maxLen then Pass else Fail(LengthMessage(fieldName, minLen, maxLen))
  }

  // ------------------------------------------------------------------ restricted words

  const ViolentWords: seq<string> := ["sex", "sexy", "sexual", "nude", "porn", "pornography", "nudes", "nudity"]

  /** Some word of `words` occurs in `t`. */
  function AnyOccurs(words: seq<string>, t: string): (r: bool)
    ensures r <==> exists i :: 0 <= i < |words| && Occurs(words[i], t)
  {
    if words == [] then false
    else
      var rest := AnyOccurs(words[1..], t);
      assert forall i :: 1 <= i < |words| ==> words[i] == words[1..][i - 1];
      HasSubstring(t, words[0]) || rest
  }

  /** `re.search(violent_words_regex, s, re.IGNORECASE)`: one of the listed words occurs in
      `s`, upper and lower case alike. */
  function HasViolentWord(s: string): (r: bool)
    ensures r <==> exists i :: 0 <= i < |ViolentWords| && Occurs(ViolentWords[i], Lower(s))
  {
    AnyOccurs(ViolentWords, Lower(s))
  }

  lemma OccursExtended(w: string, ext: string, t: string)
    requires Occurs(w + ext, t)
    ensures Occurs(w, t)
  {
    var i :| MatchesAt(t, w + ext, i);
    assert t[i..i + |w|] == t[i..i + |w + ext|][..|w|];
    assert MatchesAt(t, w, i);
  }

  /** Four of the eight words extend another, so the matcher fires exactly when "sex",
      "nude", "porn" or "nudity" occurs. */
  lemma ViolentRoots(s: string)
    ensures HasViolentWord(s) <==>
              Occurs("sex", Lower(s)) || Occurs("nude", Lower(s)) || Occurs("porn", Lower(s)) || Occurs("nudity", Lower(s))
  {
    var t := Lower(s);
    assert "sex" + "y" == "sexy" && "sex" + "ual" == "sexual";
    assert "porn" + "ography" == "pornography" && "nude" + "s" == "nudes";
    if Occurs("sexy", t) { OccursExtended("sex", "y", t); }
    if Occurs("sexual", t) { OccursExtended("sex", "ual", t); }
    if Occurs("pornography", t) { OccursExtended("porn", "ography", t); }
    if Occurs("nudes", t) { OccursExtended("nude", "s", t); }
    assert ViolentWords[0] == "sex" && ViolentWords[3] == "nude" && ViolentWords[4] == "porn" && ViolentWords[7] == "nudity";
  }

  /** The matcher ignores case. */
  lemma ViolentIgnoresCase(s: string)
    ensures HasViolentWord(Lower(s)) == HasViolentWord(s)
  {
    LowerIdempotent(s);
  }

  // ------------------------------------------------------------------ field checks

  /** validate_username: None passes; "" is rejected as empty; otherwise 3 to 20
      characters and no restricted word, checked in that order. */
  function ValidateUsername(username: Option<string>): (r: Verdict)
    ensures username.None? ==> r == Pass
    ensures username == Some("") ==> r == Fail("Username cannot be empty.")
    ensures username.Some? ==> (r.Pass? <==> 3 <= |username.value| <= 20 && !HasViolentWord(username.value))
    ensures username.Some? && username.value != "" && !(3 <= |username.value| <= 20) ==>
              r == Fail(LengthMessage("Username", 3, 20))
  {
    match username
    case None => Pass
    case Some(u) =>
      if u == "" then Fail("Username cannot be empty.")
      else
        var length := ValidateLength(u, 3, 20, "Username");
        if length.Fail? then length
        else if HasViolentWord(u) then Fail("Username contains restricted or inappropriate content.")
        else Pass
  }

  predicate IsLocalChar(c: char)
  {
    IsAsciiLetter(c) || IsAsciiDigit(c) || c == '.' || c == '_' || c == '%' || c == '+' || c == '-'
  }

  predicate IsDomainChar(c: char)
  {
    IsAsciiLetter(c) || IsAsciiDigit(c) || c == '.' || c == '-'
  }

  /** `e` splits as local part `e[..at]`, '@', domain `e[at + 1..dot]`, '.', and an
      alphabetic top-level domain `e[dot + 1..]` of two or more letters. */
  predicate EmailSplit(e: string, at: int, dot: int)
  {
    && 0 < at && at + 1 < dot && dot + 2 < |e|
    && e[at] == '@' && e[dot] == '.'
    && (forall i :: 0 <= i < at ==> IsLocalChar(e[i]))
    && (forall i :: at < i < dot ==> IsDomainChar(e[i]))
    && (forall i :: dot < i < |e| ==> IsAsciiLetter(e[i]))
  }

  /** The email pattern between its anchors. */
  ghost predicate EmailShape(e: string)
  {
    exists at, dot :: EmailSplit(e, at, dot)
  }

  /** `re.match(email_regex, e)`: the `$` anchor also matches just before a final newline. */
  ghost predicate EmailMatches(e: string)
  {
    EmailShape(e) || (|e| > 0 && e[|e| - 1] == '\n' && EmailShape(e[..|e| - 1]))
  }

  function IndexOf(s: string, c: char): (r: Option<nat>)
    ensures r.Some? ==> r.value < |s| && s[r.value] == c && forall i :: 0 <= i < r.value ==> s[i] != c
    ensures r.None? ==> forall i :: 0 <= i < |s| ==> s[i] != c
  {
    if s == [] then None
    else if s[0] == c then Some(0)
    else match IndexOf(s[1..], c)
      case None => None
      case Some(i) => Some(i + 1)
  }

  function LastIndexOf(s: string, c: char): (r: Option<nat>)
    ensures r.Some? ==> r.value < |s| && s[r.value] == c && forall i :: r.value < i < |s| ==> s[i] != c
    ensures r.None? ==> forall i :: 0 <= i < |s| ==> s[i] != c
  {
    if s == [] then None
    else if s[|s| - 1] == c then Some(|s| - 1)
    else LastIndexOf(s[..|s| - 1], c)
  }

  /** The pattern decided directly: since neither part before the top-level domain may hold
      '@' and the top-level domain holds no '.', the only split to try is at the first '@'
      and the last '.'. */
  function CheckEmailShape(e: string): (r: bool)
    ensures r <==> EmailShape(e)
  {
    var at, dot := IndexOf(e, '@'), LastIndexOf(e, '.');
    if at.Some? && dot.Some? && EmailSplit(e, at.value, dot.value) then true
    else
      assert !EmailShape(e) by {
        if EmailShape(e) {
          var a, d :| EmailSplit(e, a, d);
          assert at == Some(a) by {
            assert !IsLocalChar('@');
          }
          assert false;
        }
      }
      false
  }

  function CheckEmail(e: string): (r: bool)
    ensures r <==> EmailMatches(e)
  {
    CheckEmailShape(e) || (|e| > 0 && e[|e| - 1] == '\n' && CheckEmailShape(e[..|e| - 1]))
  }

  /** validate_email: None passes; "" is rejected as empty; otherwise 5 to 255 characters
      that match the email pattern. */
  function ValidateEmail(email: Option<string>): (r: Verdict)
    ensures email.None? ==> r == Pass
    ensures email == Some("") ==> r == Fail("Email cannot be empty.")
    ensures email.Some? ==> (r.Pass? <==> 5 <= |email.value| <= 255 && EmailMatches(email.value))
    ensures email.Some? && email.value != "" && !(5 <= |email.value| <= 255) ==> r == Fail(LengthMessage("Email", 5, 255))
  {
    match email
    case None => Pass
    case Some(e) =>
      if e == "" then Fail("Email cannot be empty.")
      else
        var length := ValidateLength(e, 5, 255, "Email");
        if length.Fail? then length
        else if !CheckEmail(e) then Fail("Invalid email format.")
        else Pass
  }

  /** validate_phone_number: only the empty string is rejected. */
  function ValidatePhoneNumber(phoneNumber: Option<string>): (r: Verdict)
    ensures r.Pass? <==> phoneNumber != Some("")
    ensures r.Fail? ==> r.detail == "Phone number cannot be empty."
  {
    if phoneNumber == Some("") then Fail("Phone number cannot be empty.") else Pass
  }

  predicate HasDigit(s: string)
  {
    exists i | 0 <= i < |s| :: IsAsciiDigit(s[i])
  }

  predicate HasLetter(s: string)
  {
    exists i | 0 <= i < |s| :: IsAsciiLetter(s[i])
  }

  /** validate_password: None passes; "" is rejected as empty; otherwise 8 to 255
      characters, then a digit, then a letter, each failure with its own message. */
  function ValidatePassword(password: Option<string>): (r: Verdict)
    ensures password.None? ==> r == Pass
    ensures password == Some("") ==> r == Fail("Password cannot be empty.")
    ensures password.Some? ==> (r.Pass? <==> 8 <= |password.value| <= 255 && HasDigit(password.value) && HasLetter(password.value))
    ensures password.Some? && password.value != "" && !(8 <= |password.value| <= 255) ==>
              r == Fail(LengthMessage("Password", 8, 255))
    ensures password.Some? && 8 <= |password.value| <= 255 && !HasDigit(password.value) ==>
              r == Fail("Password must contain at least one digit.")
    ensures password.Some? && 8 <= |password.value| <= 255 && HasDigit(password.value) && !HasLetter(password.value) ==>
              r == Fail("Password must contain at least one letter.")
  {
    match password
    case None => Pass
    case Some(p) =>
      if p == "" then Fail("Password cannot be empty.")
      else
        var length := ValidateLength(p, 8, 255, "Password");
        if length.Fail? then length
        else if !HasDigit(p) then Fail("Password must contain at least one digit.")
        else if !HasLetter(p) then Fail("Password must contain at least one letter.")
        else Pass
  }

  // ------------------------------------------------------------------ get_file_extension

  /** get_file_extension: the lower-cased text after the last '.', or "" for a missing or
      empty filename or one without a '.'. */
  function GetFileExtension(filename: Option<string>): (r: string)
    ensures filename.None? || '.' !in filename.value ==> r == ""
    ensures '.' !in r
  {
    match filename
    case None => ""
    case Some(name) =>
      match LastIndexOf(name, '.')
      case None => ""
      case Some(i) =>
        assert '.' !in name[i + 1..];
        Lower(name[i + 1..])
  }

  /** The extension of `stem.ext` is `ext` in lower case, whatever the stem holds. */
  lemma ExtensionOf(stem: string, ext: string)
    requires '.' !in ext
    ensures GetFileExtension(Some(stem + "." + ext)) == Lower(ext)
  {
    var name := stem + "." + ext;
    assert name[|stem|] == '.';
    assert forall i :: |stem| < i < |name| ==> name[i] == ext[i - |stem| - 1];
    assert name[|stem| + 1..] == ext;
  }

  // ------------------------------------------------------------------ RediSearch escaping

  /** The characters the escaper prefixes with a backslash. */
  const SpecialChars: string := "[](){}<>:\\\"'+-=&|!~@#^*%`?.,/"

  function CountSpecial(s: string): nat
  {
    if s == [] then 0 else (if s[0] in SpecialChars then 1 else 0) + CountSpecial(s[1..])
  }

  /** escape_redisearch_special_chars. */
  function Escape(s: string): (r: string)
    ensures |r| == |s| + CountSpecial(s)
  {
    if s == [] then []
    else (if s[0] in SpecialChars then ['\\', s[0]] else [s[0]]) + Escape(s[1..])
  }

  /** The query parser's reading of an escaped string: a backslash stands for the character
      after it. */
  function Unescape(t: string): (r: string)
    ensures |r| <= |t|
  {
    if t == [] then []
    else if t[0] == '\\' && |t| >= 2 then [t[1]] + Unescape(t[2..])
    else [t[0]] + Unescape(t[1..])
  }

  /** Escaping loses nothing: reading the escaped text back gives the original. */
  lemma {:induction false} UnescapeEscape(s: string)
    ensures Unescape(Escape(s)) == s
  {
    if s != [] {
      UnescapeEscape(s[1..]);
      var e := Escape(s);
      if s[0] in SpecialChars {
        assert e[0] == '\\' && e[1] == s[0] && e[2..] == Escape(s[1..]);
      } else {
        assert s[0] != '\\';
        assert e[0] == s[0] && e[1..] == Escape(s[1..]);
      }
      assert s == [s[0]] + s[1..];
    }
  }

  /** Every character outside the special set is copied as it is, so a string without
      specials is its own escape. */
  lemma {:induction false} EscapePlain(s: string)
    requires forall i :: 0 <= i < |s| ==> s[i] !in SpecialChars
    ensures Escape(s) == s
  {
    if s != [] {
      EscapePlain(s[1..]);
      assert s == [s[0]] + s[1..];
    }
  }
}
