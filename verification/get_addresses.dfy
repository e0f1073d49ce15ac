/**
 * The address lookup endpoint. It checks the two query parameters in a
 * fixed order, the first failing check deciding a 400 response, and
 * otherwise answers with whatever the address generator produced: 200
 * when that value is truthy (an empty array is truthy), 404 when it is not.
 * The generator itself is a parameter of the model.
 */
module GetAddresses {
  import opened Wrappers
  import opened JsStrings

  const MandatoryMessage := "Postcode and street number fields mandatory!"
  const ShortPostcodeMessage := "Postcode must be at least 4 digits!"
  const NotDigitsSuffix := " must be all digits and non negative!"
  const PostcodeField := "Postcode"
  const StreetNumberField := "Street Number"
  const NotFoundMessage := "No results found!"

  /** The query parameters `postcode` and `streetnumber`; `None` when absent. */
  datatype Query = Query(postcode: Option<string>, streetnumber: Option<string>)

  /** What `handle` sends: the status code is given by `StatusCode` and the
      error message by `ErrorMessageOf`; `details` is the generator's value
      as it was returned. */
  datatype Response<R> = BadRequest(errormessage: string) | NotFound | Found(details: seq<R>)

  /** The result of `validateNumericField`. */
  datatype ValidationResult = ValidationResult(isValid: bool, errorMessage: Option<string>)

  function StatusCode<R>(r: Response<R>): (code: int)
    ensures code == 200 <==> r.Found?
    ensures code == 400 <==> r.BadRequest?
    ensures code == 404 <==> r.NotFound?
  {
    match r
    case BadRequest(_) => 400
    case NotFound => 404
    case Found(_) => 200
  }

  /** The error message a client sees; a 404 carries `NotFoundMessage`. */
  function ErrorMessageOf<R>(r: Response<R>): (m: Option<string>)
    ensures m.None? <==> r.Found?
    ensures r.BadRequest? ==> m == Some(r.errormessage)
    ensures r.NotFound? ==> m == Some(NotFoundMessage)
  {
    match r
    case BadRequest(msg) => Some(msg)
    case NotFound => Some(NotFoundMessage)
    case Found(_) => None
  }

  /** `!v` for a query parameter: absent or the empty string. */
  predicate Falsy(v: Option<string>) {
    v.None? || v.value == ""
  }

  /** `\d` of a regular expression without the `u` flag: ASCII digits only. */
  predicate IsAsciiDigit(c: char) {
    '0' <= c <= '9'
  }

  function AllAsciiDigits(s: string): (r: bool)
    ensures r <==> forall i | 0 <= i < |s| :: IsAsciiDigit(s[i])
  {
    s == [] || (IsAsciiDigit(s[0]) && AllAsciiDigits(s[1..]))
  }

  /** `/^\d+$/.test(s)` */
  function MatchesDigits(s: string): (r: bool)
    ensures r <==> |s| > 0 && forall i | 0 <= i < |s| :: IsAsciiDigit(s[i])
  {
    |s| > 0 && AllAsciiDigits(s)
  }

  /** `validateNumericField(value, fieldName)` */
  function ValidateNumericField(value: string, fieldName: string): (r: ValidationResult)
    ensures r.isValid <==> |value| > 0 && forall i | 0 <= i < |value| :: '0' <= value[i] <= '9'
    ensures r.isValid <==> r.errorMessage.None?
    ensures !r.isValid ==> r.errorMessage == Some(fieldName + NotDigitsSuffix)
  {
    if !MatchesDigits(value) then
      ValidationResult(false, Some(fieldName + NotDigitsSuffix))
    else
      ValidationResult(true, None)
  }

  /** `handle`: the validation chain and the choice between 200 and 404.
      `generate` stands for the mock generator; `None` is a falsy result. */
  function Handle<R>(query: Query, generate: (string, string) -> Option<seq<R>>): (r: Response<R>)
    ensures r.BadRequest? ==>
              r.errormessage in {MandatoryMessage, ShortPostcodeMessage,
                                 PostcodeField + NotDigitsSuffix, StreetNumberField + NotDigitsSuffix}
    ensures !r.BadRequest? ==>
              query.postcode.Some? && query.streetnumber.Some? &&
              (r.Found? <==> generate(query.postcode.value, query.streetnumber.value).Some?)
    ensures r.Found? ==> Some(r.details) == generate(query.postcode.value, query.streetnumber.value)
  {
    if Falsy(query.postcode) || Falsy(query.streetnumber) then
      BadRequest(MandatoryMessage)
    else
      var postcode, streetnumber := query.postcode.value, query.streetnumber.value;
      if Utf16Length(postcode) < 4 then
        BadRequest(ShortPostcodeMessage)
      else
        var postcodeValidation := ValidateNumericField(postcode, PostcodeField);
        if !postcodeValidation.isValid then
          BadRequest(postcodeValidation.errorMessage.value)
        else
          var streetNumberValidation := ValidateNumericField(streetnumber, StreetNumberField);
          if !streetNumberValidation.isValid then
            BadRequest(streetNumberValidation.errorMessage.value)
          else
            match generate(postcode, streetnumber)
            case Some(mockAddresses) => Found(mockAddresses)
            case None => NotFound
  }

  /** The request the endpoint accepts, stated independently of the check order. */
  ghost predicate RequestValid(query: Query) {
    && query.postcode.Some? && query.streetnumber.Some?
    && |query.postcode.value| >= 4
    && |query.streetnumber.value| > 0
    && (forall i | 0 <= i < |query.postcode.value| :: IsAsciiDigit(query.postcode.value[i]))
    && (forall i | 0 <= i < |query.streetnumber.value| :: IsAsciiDigit(query.streetnumber.value[i]))
  }

  /** A 400 is answered exactly for the requests that are not valid. */
  lemma BadRequestIffInvalid<R>(query: Query, generate: (string, string) -> Option<seq<R>>)
    ensures Handle(query, generate).BadRequest? <==> !RequestValid(query)
  {
    if query.postcode.Some? {
      var p := query.postcode.value;
      if forall i | 0 <= i < |p| :: IsAsciiDigit(p[i]) {
        assert forall i | 0 <= i < |p| :: p[i] <= '\U{FFFF}' by {
          forall i | 0 <= i < |p| ensures p[i] <= '\U{FFFF}' {
            assert IsAsciiDigit(p[i]);
          }
        }
        assert Utf16Length(p) == |p|;
      }
    }
  }

  /** A valid request is answered 200 exactly when the generator returns a
      truthy value, with that value, an empty array included, as `details`;
      otherwise 404. */
  lemma ValidRequestOutcome<R>(query: Query, generate: (string, string) -> Option<seq<R>>)
    requires RequestValid(query)
    ensures var g := generate(query.postcode.value, query.streetnumber.value);
            Handle(query, generate) == if g.Some? then Found(g.value) else NotFound
  {
    BadRequestIffInvalid(query, generate);
  }

  /** A missing or empty parameter is reported before any other check. */
  lemma MissingFieldFirst<R>(query: Query, generate: (string, string) -> Option<seq<R>>)
    requires query.postcode.None? || query.postcode == Some("")
          || query.streetnumber.None? || query.streetnumber == Some("")
    ensures Handle(query, generate) == BadRequest(MandatoryMessage)
  {
  }

  /** A postcode of fewer than four UTF-16 code units is rejected as short,
      whatever its characters, for any non-empty street number. */
  lemma ShortPostcodeRejected<R>(postcode: string, streetnumber: string,
                                 generate: (string, string) -> Option<seq<R>>)
    requires postcode != "" && streetnumber != "" && Utf16Length(postcode) < 4
    ensures Handle(Query(Some(postcode), Some(streetnumber)), generate)
            == BadRequest(ShortPostcodeMessage)
  {
  }

  /** A long enough postcode with a non-digit is rejected before the street
      number is looked at. */
  lemma NonDigitPostcodeRejected<R>(postcode: string, streetnumber: string, k: nat,
                                    generate: (string, string) -> Option<seq<R>>)
    requires streetnumber != "" && Utf16Length(postcode) >= 4
    requires k < |postcode| && !IsAsciiDigit(postcode[k])
    ensures Handle(Query(Some(postcode), Some(streetnumber)), generate)
            == BadRequest(PostcodeField + NotDigitsSuffix)
  {
    var q := Query(Some(postcode), Some(streetnumber));
    assert postcode != [] && !Falsy(q.postcode) && !Falsy(q.streetnumber);
    assert !MatchesDigits(postcode);
    var v := ValidateNumericField(postcode, PostcodeField);
    assert v == ValidationResult(false, Some(PostcodeField + NotDigitsSuffix));
    assert Handle(q, generate) == BadRequest(v.errorMessage.value);
  }

  /** With a valid postcode, a street number with a non-digit is rejected. */
  lemma NonDigitStreetNumberRejected<R>(postcode: string, streetnumber: string, k: nat,
                                        generate: (string, string) -> Option<seq<R>>)
    requires |postcode| >= 4 && forall i | 0 <= i < |postcode| :: IsAsciiDigit(postcode[i])
    requires k < |streetnumber| && !IsAsciiDigit(streetnumber[k])
    ensures Handle(Query(Some(postcode), Some(streetnumber)), generate)
            == BadRequest(StreetNumberField + NotDigitsSuffix)
  {
    assert streetnumber != [] && Utf16Length(postcode) >= 4;
    assert ValidateNumericField(postcode, PostcodeField).isValid;
    assert !ValidateNumericField(streetnumber, StreetNumberField).isValid;
  }

  /** The request postcode=123, streetnumber=1 is answered 400 "at least 4 digits". */
  lemma ShortPostcodeExample<R>(generate: (string, string) -> Option<seq<R>>)
    ensures StatusCode(Handle(Query(Some("123"), Some("1")), generate)) == 400
    ensures ErrorMessageOf(Handle(Query(Some("123"), Some("1")), generate))
            == Some("Postcode must be at least 4 digits!")
  {
    ShortPostcodeRejected("123", "1", generate);
  }

  /** One character outside the Basic Multilingual Plane is two UTF-16 code
      units, so it is still too short. */
  lemma AstralShortPostcodeExample<R>(generate: (string, string) -> Option<seq<R>>)
    ensures Handle(Query(Some("\U{1F600}"), Some("1")), generate) == BadRequest(ShortPostcodeMessage)
  {
    ShortPostcodeRejected("\U{1F600}", "1", generate);
  }

  /** Two characters outside the Basic Multilingual Plane are four UTF-16
      code units: the length check passes and the digit check rejects. */
  lemma AstralLongPostcodeExample<R>(generate: (string, string) -> Option<seq<R>>)
    ensures Handle(Query(Some("\U{1F600}\U{1F600}"), Some("1")), generate)
            == BadRequest(PostcodeField + NotDigitsSuffix)
  {
    NonDigitPostcodeRejected("\U{1F600}\U{1F600}", "1", 0, generate);
  }

  /** The request postcode=12AB, streetnumber=1 is answered 400 "all digits". */
  lemma NonDigitPostcodeExample<R>(generate: (string, string) -> Option<seq<R>>)
    ensures ErrorMessageOf(Handle(Query(Some("12AB"), Some("1")), generate))
            == Some(PostcodeField + NotDigitsSuffix)
  {
    NonDigitPostcodeRejected("12AB", "1", 2, generate);
  }

  /** The request postcode=1234, streetnumber=1 is valid: it is answered 200
      with the generator's records when there are any, and 404 "No results
      found!" when the generator gives a falsy value. */
  lemma ValidLookupExample<R>(generate: (string, string) -> Option<seq<R>>)
    ensures var r := Handle(Query(Some("1234"), Some("1")), generate);
            && (generate("1234", "1").Some? ==> StatusCode(r) == 200 && r.details == generate("1234", "1").value)
            && (generate("1234", "1").None? ==> ErrorMessageOf(r) == Some("No results found!"))
  {
    var q := Query(Some("1234"), Some("1"));
    assert forall i | 0 <= i < 4 :: IsAsciiDigit("1234"[i]);
    assert RequestValid(q);
    ValidRequestOutcome(q, generate);
  }
}
