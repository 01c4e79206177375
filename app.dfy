/** The application's two exception handlers: an `ApiException` becomes a JSON response
    with its own status code, and a request validation error becomes a 422 whose
    "details" list holds one readable line per error that can be described. */
module App {

  import opened Wrappers
  import opened Text
  import opened PyData
  import opened Exceptions

  /** One step of an error location: a field name or a list index. */
  datatype LocItem = LocField(name: string) | LocIndex(index: int)

  /** One entry of `RequestValidationError.errors()`. `ctxError` is the exception under
      the "error" key of its "ctx" dict, when there is one; `loc` and `msg` are absent
      when the entry lacks those keys. */
  datatype ErrorItem = ErrorItem(ctxError: Option<Raised>, loc: Option<seq<LocItem>>, msg: Option<string>)

  /** A JSON response: status code, body, and extra headers. */
  datatype JsonResponse = JsonResponse(statusCode: int, content: PyValue, headers: Option<map<string, string>>)

  /** `str()` of a location step. */
  function LocText(item: LocItem): string
  {
    match item
    case LocField(name) => name
    case LocIndex(i) => FormatInt(i)
  }

  /** `str.capitalize`: the first character upper case, the rest lower case. */
  function Capitalize(s: string): (r: string)
    ensures |r| == |s|
    ensures s != [] ==> !IsAsciiLower(r[0]) && r[1..] == Lower(s[1..])
  {
    if s == [] then [] else [UpperChar(s[0])] + Lower(s[1..])
  }

  /** Capitalizing twice changes nothing more. */
  lemma CapitalizeIdempotent(s: string)
    ensures Capitalize(Capitalize(s)) == Capitalize(s)
  {
    if s != [] {
      LowerIdempotent(s[1..]);
    }
  }

  /** What one error adds to the details: the text of its context exception when it has
      one; otherwise the capitalized second location step and the lower-cased message,
      when the location has more than one step; otherwise nothing. */
  function ErrorDetail(e: ErrorItem): (r: Option<string>)
    ensures e.ctxError.Some? ==> r == Some(RaisedText(e.ctxError.value))
    ensures e.ctxError.None? ==> (r.Some? <==> e.loc.Some? && |e.loc.value| > 1)
    ensures e.ctxError.None? && r.Some? ==>
              var field := Capitalize(LocText(e.loc.value[1]));
              var msg := Lower(e.msg.GetOr(""));
              |r.value| == |field| + 1 + |msg| && r.value[..|field|] == field &&
              r.value[|field|] == ' ' && r.value[|field| + 1..] == msg
  {
    if e.ctxError.Some? then Some(RaisedText(e.ctxError.value))
    else
      var loc := e.loc.GetOr([]);
      if |loc| > 1 then
        var field := Capitalize(LocText(loc[1]));
        var r := field + " " + Lower(e.msg.GetOr(""));
        assert r[..|field|] == field;
        Some(r)
      else None
  }

  /** The details of a list of errors, one per describable error, in the errors' order. */
  function DetailsOf(errors: seq<ErrorItem>): (r: seq<string>)
    ensures |r| <= |errors|
  {
    if errors == [] then []
    else
      var last := errors[|errors| - 1];
      DetailsOf(errors[..|errors| - 1]) + (match ErrorDetail(last) case Some(d) => [d] case None => [])
  }

  /** The details of two runs of errors are the first run's details followed by the
      second's. */
  lemma {:induction false} DetailsOfConcat(a: seq<ErrorItem>, b: seq<ErrorItem>)
    ensures DetailsOf(a + b) == DetailsOf(a) + DetailsOf(b)
    decreases |b|
  {
    if b == [] {
      assert a + b == a;
    } else {
      var init := b[..|b| - 1];
      assert (a + b)[..|a + b| - 1] == a + init;
      DetailsOfConcat(a, init);
    }
  }

  /** Every error that can be described contributes its line: there is one line per error
      exactly when each error has a context exception or a location of two steps. */
  lemma {:induction false} DetailsComplete(errors: seq<ErrorItem>)
    ensures |DetailsOf(errors)| == |errors| <==> forall i :: 0 <= i < |errors| ==> ErrorDetail(errors[i]).Some?
  {
    if errors != [] {
      var init := errors[..|errors| - 1];
      DetailsComplete(init);
      if forall i :: 0 <= i < |errors| ==> ErrorDetail(errors[i]).Some? {
        assert forall i :: 0 <= i < |init| ==> ErrorDetail(init[i]).Some? by {
          forall i | 0 <= i < |init| ensures ErrorDetail(init[i]).Some? {
            assert init[i] == errors[i];
          }
        }
      } else {
        var j :| 0 <= j < |errors| && ErrorDetail(errors[j]).None?;
        if j < |errors| - 1 {
          assert init[j] == errors[j];
        }
      }
    }
  }

  /** The response body `{"details": details}` for a list of lines. */
  function DetailsBody(details: seq<string>): (body: PyValue)
    ensures body.PyDict? && Lookup(body.entries, "details").Some?
    ensures Lookup(body.entries, "details").value.PyList?
    ensures var items := Lookup(body.entries, "details").value.items;
            |items| == |details| && forall i :: 0 <= i < |details| ==> items[i] == PyStr(details[i])
  {
    PyDict([("details", PyList(seq(|details|, i requires 0 <= i < |details| => PyStr(details[i]))))])
  }

  /** api_exception_handler: the exception's status code, and its detail under "details".
      The exception's headers are never set, so none are sent. */
  function ApiExceptionHandler(e: HttpError): (r: JsonResponse)
    ensures r.statusCode == e.statusCode && r.headers.None?
    ensures r.content.PyDict? && Lookup(r.content.entries, "details") == Some(PyStr(e.detail))
  {
    JsonResponse(e.statusCode, PyDict([("details", PyStr(e.detail))]), None)
  }

  /** validation_exception_handler: walks the errors in order, appending each one's line,
      and answers 422 with the lines under "details". */
  method ValidationExceptionHandler(errors: seq<ErrorItem>) returns (r: JsonResponse)
    ensures r.statusCode == 422 && r.headers.None?
    ensures r.content == DetailsBody(DetailsOf(errors))
  {
    var details: seq<string> := [];
    for i := 0 to |errors|
      invariant details == DetailsOf(errors[..i])
    {
      assert errors[..i + 1][..i] == errors[..i];
      var e := errors[i];
      if e.ctxError.Some? {
        details := details + [RaisedText(e.ctxError.value)];
      } else {
        var loc := if e.loc.Some? then e.loc.value else [];
        var msg := if e.msg.Some? then e.msg.value else "";
        if |loc| > 1 {
          var field := Capitalize(LocText(loc[1]));
          details := details + [field + " " + Lower(msg)];
        }
      }
    }
    assert errors[..|errors|] == errors;
    r := JsonResponse(422, DetailsBody(details), None);
  }
}
