/** The field validators of the feed creation schema: the body is required and at most
    200 characters; a scheduled time, when given, lies between now and seven days from
    now. Every failure surfaces as a `ValidationException`, an HTTP 400. */
module FeedSchemas {

  import opened Wrappers
  import opened Text
  import opened Exceptions
  import opened DateTimes

  const BodyRequired: string := "body is required."
  const BodyTooLong: string := "body is exceeded max 200 character limit."
  const InThePast: string := "Scheduled time cannot be in the past."
  const TooFarAhead: string := "Scheduled time cannot be more than 7 days in the future."

  /** validate_body. */
  function BodyField(value: Option<string>): (r: Validated<Option<string>>)
    ensures r.Valid? <==> value.Some? && |value.value| <= 200
    ensures r.Valid? ==> r.value == value
    ensures value.None? ==> r == Invalid(Api(ValidationException(BodyRequired)))
    ensures value.Some? && |value.value| > 200 ==> r == Invalid(Api(ValidationException(BodyTooLong)))
  {
    if value.None? then Invalid(Api(ValidationException(BodyRequired)))
    else if |value.value| > 200 then Invalid(Api(ValidationException(BodyTooLong)))
    else Valid(value)
  }

  /** The body of the `try` in validate_scheduled: what it raises, if anything. `now` is
      the caller's clock reading, in UTC. */
  function ScheduledCheck(value: Option<Moment>, now: Moment): (raised: Option<Raised>)
    requires now.aware
    ensures value.None? ==> raised.None?
    ensures value.Some? && !value.value.aware ==> raised == Some(TypeError(CompareError))
    ensures value.Some? && value.value.aware ==>
              (raised.None? <==> now.micros <= value.value.micros <= now.micros + Days(7))
    ensures value.Some? && value.value.aware && value.value.micros < now.micros ==>
              raised == Some(Api(ValidationException(InThePast)))
    ensures value.Some? && value.value.aware && value.value.micros > now.micros + Days(7) ==>
              raised == Some(Api(ValidationException(TooFarAhead)))
  {
    match value
    case None => None
    case Some(v) =>
      var maxFuture := Shift(now, Days(7));
      match Less(v, now)
      case None => Some(TypeError(CompareError))
      case Some(true) => Some(Api(ValidationException(InThePast)))
      case Some(false) =>
        match Less(maxFuture, v)
        case None => Some(TypeError(CompareError))
        case Some(true) => Some(Api(ValidationException(TooFarAhead)))
        case Some(false) => None
  }

  /** validate_scheduled: whatever the check raises is caught and raised again as a
      `ValidationException` carrying its text, so a rejected time reads "400: ..." and a
      time without a time zone reads as the comparison's TypeError message. */
  function ScheduledField(value: Option<Moment>, now: Moment): (r: Validated<Option<Moment>>)
    requires now.aware
    ensures r.Valid? <==> value.None? || (value.value.aware && now.micros <= value.value.micros <= now.micros + Days(7))
    ensures r.Valid? ==> r.value == value
    ensures r.Invalid? ==> r.raised.Api? && r.raised.error.statusCode == 400
    ensures value.Some? && !value.value.aware ==> r == Invalid(Api(ValidationException(CompareError)))
    ensures value.Some? && value.value.aware && value.value.micros < now.micros ==>
              r == Invalid(Api(ValidationException(HttpErrorText(ValidationException(InThePast)))))
    ensures value.Some? && value.value.aware && value.value.micros > now.micros + Days(7) ==>
              r == Invalid(Api(ValidationException(HttpErrorText(ValidationException(TooFarAhead)))))
  {
    match ScheduledCheck(value, now)
    case None => Valid(value)
    case Some(e) => Invalid(Api(ValidationException(RaisedText(e))))
  }

  /** A rejected time's detail is the status code, a colon, and the message the check
      raised: the original message survives at the end of it. */
  lemma RejectedDetailEndsWithMessage(value: Moment, now: Moment)
    requires now.aware && value.aware
    requires value.micros < now.micros || value.micros > now.micros + Days(7)
    ensures var r := ScheduledField(Some(value), now);
            var m := if value.micros < now.micros then InThePast else TooFarAhead;
            r.Invalid? && r.raised.error.detail == "400: " + m
  {
    var m := if value.micros < now.micros then InThePast else TooFarAhead;
    var t := HttpErrorText(ValidationException(m));
    assert FormatInt(400) == "400";
    assert t == "400: " + m;
  }
}
