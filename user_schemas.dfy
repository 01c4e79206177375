/** The field validators of the user request schemas: registration, verification, login,
    password reset and profile update. Each hands its value back unchanged or raises; a
    `ValidationException` from the shared checks becomes an HTTP 400, a `ValueError`
    becomes one entry of the 422 validation response. */
module UserSchemas {

  import opened Wrappers
  import opened Text
  import opened Exceptions
  import opened DateTimes
  import opened Validators

  /** A shared check run on a field: the value back when it passes, its
      `ValidationException` when it fails. */
  function Checked<T>(verdict: Verdict, value: T): (r: Validated<T>)
    ensures r.Valid? <==> verdict.Pass?
    ensures r.Valid? ==> r.value == value
    ensures verdict.Fail? ==> r == Invalid(Api(ValidationException(verdict.detail)))
  {
    if verdict.Pass? then Valid(value) else Invalid(Api(ValidationException(verdict.detail)))
  }

  /** The name validator of RegisterSchema: 2 to 30 characters. */
  function NameField(value: string): (r: Validated<string>)
    ensures r.Valid? <==> 2 <= |value| <= 30
    ensures r.Valid? ==> r.value == value
    ensures r.Invalid? ==> r.raised == Api(ValidationException(LengthMessage("Name", 2, 30)))
  {
    Checked(ValidateLength(value, 2, 30, "Name"), value)
  }

  /** The name validator of ProfileUpdateSchema: None, or 2 to 30 characters. */
  function OptionalNameField(value: Option<string>): (r: Validated<Option<string>>)
    ensures r.Valid? <==> value.None? || 2 <= |value.value| <= 30
    ensures r.Valid? ==> r.value == value
  {
    match value
    case None => Valid(None)
    case Some(v) => Checked(ValidateLength(v, 2, 30, "Name"), value)
  }

  /** The username validators of RegisterSchema, LoginSchema and ProfileUpdateSchema. */
  function UsernameField(value: Option<string>): (r: Validated<Option<string>>)
    ensures r.Valid? <==> value.None? || (3 <= |value.value| <= 20 && !HasViolentWord(value.value))
    ensures r.Valid? ==> r.value == value
    ensures value == Some("") ==> r == Invalid(Api(ValidationException("Username cannot be empty.")))
  {
    Checked(ValidateUsername(value), value)
  }

  /** The email validators of RegisterSchema, RequestForgotPasswordSchema and
      ProfileUpdateSchema. */
  function EmailField(value: Option<string>): (r: Validated<Option<string>>)
    ensures r.Valid? <==> value.None? || (5 <= |value.value| <= 255 && EmailMatches(value.value))
    ensures r.Valid? ==> r.value == value
    ensures value == Some("") ==> r == Invalid(Api(ValidationException("Email cannot be empty.")))
  {
    Checked(ValidateEmail(value), value)
  }

  /** The password validators of RegisterSchema, LoginSchema, ResetPasswordSchema and
      ProfileUpdateSchema. */
  function PasswordField(value: Option<string>): (r: Validated<Option<string>>)
    ensures r.Valid? <==> value.None? || (8 <= |value.value| <= 255 && HasDigit(value.value) && HasLetter(value.value))
    ensures r.Valid? ==> r.value == value
    ensures value == Some("") ==> r == Invalid(Api(ValidationException("Password cannot be empty.")))
  {
    Checked(ValidatePassword(value), value)
  }

  /** The code validators of VerifySchema and ResetPasswordSchema: digits only (so never
      empty), then exactly four characters. */
  function CodeField(value: string): (r: Validated<string>)
    ensures r.Valid? <==> |value| == 4 && AllDigits(value)
    ensures r.Valid? ==> r.value == value
    ensures value == [] || !AllDigits(value) ==> r == Invalid(ValueError("Code must contain only digits."))
    ensures value != [] && AllDigits(value) && |value| != 4 ==> r == Invalid(ValueError("Code must be 4 digit long."))
  {
    if value == [] || !AllDigits(value) then Invalid(ValueError("Code must contain only digits."))
    else if |value| != 4 then Invalid(ValueError("Code must be 4 digit long."))
    else Valid(value)
  }

  const BirthdateMessage: string := "Birthdate must be between 12 and 100 years ago."

  /** The birthdate validator of ProfileUpdateSchema. `now` is the caller's clock reading,
      in UTC. A birthdate without a time zone cannot be compared with it and raises
      TypeError. */
  function BirthdateField(value: Option<Moment>, now: Moment): (r: Validated<Option<Moment>>)
    requires now.aware
    ensures value.None? ==> r == Valid(None)
    ensures value.Some? && !value.value.aware ==> r == Invalid(TypeError(CompareError))
    ensures value.Some? && value.value.aware ==>
              (r.Valid? <==> now.micros - Days(100 * 365) <= value.value.micros <= now.micros - Days(12 * 365))
    ensures r.Valid? ==> r.value == value
    ensures r.Invalid? && value.Some? && value.value.aware ==> r.raised == Api(ValidationException(BirthdateMessage))
  {
    match value
    case None => Valid(None)
    case Some(v) =>
      var minAgeDate := Shift(now, -Days(12 * 365));
      var maxAgeDate := Shift(now, -Days(100 * 365));
      match (Less(v, maxAgeDate), Less(minAgeDate, v))
      case (Some(tooOld), Some(tooYoung)) =>
        if tooOld || tooYoung then Invalid(Api(ValidationException(BirthdateMessage))) else Valid(value)
      case _ => Invalid(TypeError(CompareError))
  }

  /** The bio validator of ProfileUpdateSchema: None, or at most 200 characters with no
      restricted word. */
  function BioField(value: Option<string>): (r: Validated<Option<string>>)
    ensures r.Valid? <==> value.None? || (|value.value| <= 200 && !HasViolentWord(value.value))
    ensures r.Valid? ==> r.value == value
    ensures value.Some? && |value.value| > 200 ==> r == Invalid(Api(ValidationException(LengthMessage("bio", 0, 200))))
    ensures value.Some? && |value.value| <= 200 && HasViolentWord(value.value) ==>
              r == Invalid(Api(ValidationException("Bio contains sensitive or inappropriate content.")))
  {
    match value
    case None => Valid(None)
    case Some(v) =>
      var length := ValidateLength(v, 0, 200, "bio");
      if length.Fail? then Checked(length, value)
      else if HasViolentWord(v) then Invalid(Api(ValidationException("Bio contains sensitive or inappropriate content.")))
      else Valid(value)
  }

  /** Every code the verification and reset forms accept is four ASCII digits, and every
      four-digit string is accepted: exactly the codes 0000 to 9999. */
  lemma CodesAreFourDigits(value: string)
    ensures CodeField(value).Valid? <==> exists n :: 0 <= n < 10000 && value == FourDigits(n)
  {
    if |value| == 4 && AllDigits(value) {
      var a, b, c, d := DigitValue(value[0]), DigitValue(value[1]), DigitValue(value[2]), DigitValue(value[3]);
      var n := a * 1000 + b * 100 + c * 10 + d;
      FourDigitsOf(a, b, c, d);
      DigitRoundTrip(value[0]);
      DigitRoundTrip(value[1]);
      DigitRoundTrip(value[2]);
      DigitRoundTrip(value[3]);
      assert value == FourDigits(n);
    }
  }

  lemma FourDigitsOf(a: int, b: int, c: int, d: int)
    requires 0 <= a < 10 && 0 <= b < 10 && 0 <= c < 10 && 0 <= d < 10
    ensures var n := a * 1000 + b * 100 + c * 10 + d;
            n / 1000 == a && n / 100 % 10 == b && n / 10 % 10 == c && n % 10 == d
  {
    var n := a * 1000 + b * 100 + c * 10 + d;
    assert n == 10 * (a * 100 + b * 10 + c) + d;
    assert n / 10 == a * 100 + b * 10 + c;
    assert n / 100 == a * 10 + b;
    assert n / 1000 == a;
  }

  lemma DigitRoundTrip(c: char)
    requires IsAsciiDigit(c)
    ensures DigitChar(DigitValue(c)) == c
  {
  }
}
