/**
 * The `POST /connected-fields/verify` handler: request guards, dispatch on `typeName` to one of
 * the verifiers, and the mapping of the verifier's outcome (a verdict or a thrown exception)
 * to an HTTP status and JSON body.
 */
module ConnectedFields {
  import opened Wrappers
  import opened JsStrings
  import opened BankAccountDatabase
  import opened DataVerification

  datatype ErrorCode = INTERNAL_ERROR | NOT_FOUND | BAD_REQUEST

  /** The string each error code stands for on the wire. */
  function CodeName(code: ErrorCode): string {
    match code
    case INTERNAL_ERROR => "INTERNAL_ERROR"
    case NOT_FOUND => "NOT_FOUND"
    case BAD_REQUEST => "BAD_REQUEST"
  }

  /** Distinct codes are sent as distinct strings. */
  lemma CodeNamesDistinct(a: ErrorCode, b: ErrorCode)
    ensures CodeName(a) == CodeName(b) <==> a == b
  {
    if a != b {
      assert CodeName(a)[0] != CodeName(b)[0];
    }
  }

  /** The JSON error body `{code, message}`. */
  datatype ErrorResponse = ErrorResponse(code: ErrorCode, message: string)

  /** `generateErrorResponse(code, message)`; callers here always pass a string message. */
  function GenerateErrorResponse(code: ErrorCode, message: string): (r: ErrorResponse)
    ensures r.code == code && r.message == message
  {
    ErrorResponse(code, message)
  }

  /** The request body; a `typeName` or `data` that is absent or null is None. */
  datatype VerifyBody = VerifyBody(typeName: Option<string>, idempotencyKey: Option<string>, data: Option<Payload>)

  /** What the handler sends: a verifier's verdict or an error body. */
  datatype Body = Verification(result: VerifyResult) | Error(error: ErrorResponse)

  datatype Response = Response(status: nat, body: Body)

  /** The verifiers a type name can be routed to. */
  datatype Verifier = EmailVerifier | PhoneNumberVerifier | PostalAddressVerifier | BankAccountVerifier
                    | BankAccountOwnerVerifier | SsnVerifier | BusinessEntityVerifier

  /** Every type name the handler accepts. */
  const VERIFIABLE_TYPES: set<string> := {"VerifyEmailInput", "VerifyPhoneNumberInput", "PostalAddress",
    "VerifyBankAccountInput", "VerifyBankAccountOwnerInput", "VerifySocialSecurityNumberInput",
    "VerifyBusinessEntityInput", "BankAccountOpening"}

  /** The `switch (typeName)`: the verifier each case calls, None for the `default` branch. */
  function Route(typeName: string): (r: Option<Verifier>)
    ensures r.Some? <==> typeName in VERIFIABLE_TYPES
    ensures r == Some(EmailVerifier) <==> typeName == "VerifyEmailInput"
    ensures r == Some(PhoneNumberVerifier) <==> typeName == "VerifyPhoneNumberInput"
    ensures r == Some(PostalAddressVerifier) <==> typeName == "PostalAddress"
    ensures r == Some(BankAccountVerifier) <==> typeName == "VerifyBankAccountInput" || typeName == "BankAccountOpening"
    ensures r == Some(BankAccountOwnerVerifier) <==> typeName == "VerifyBankAccountOwnerInput"
    ensures r == Some(SsnVerifier) <==> typeName == "VerifySocialSecurityNumberInput"
    ensures r == Some(BusinessEntityVerifier) <==> typeName == "VerifyBusinessEntityInput"
  {
    if typeName == "VerifyEmailInput" then Some(EmailVerifier)
    else if typeName == "VerifyPhoneNumberInput" then Some(PhoneNumberVerifier)
    else if typeName == "PostalAddress" then Some(PostalAddressVerifier)
    else if typeName == "VerifyBankAccountInput" then Some(BankAccountVerifier)
    else if typeName == "VerifyBankAccountOwnerInput" then Some(BankAccountOwnerVerifier)
    else if typeName == "VerifySocialSecurityNumberInput" then Some(SsnVerifier)
    else if typeName == "VerifyBusinessEntityInput" then Some(BusinessEntityVerifier)
    else if typeName == "BankAccountOpening" then Some(BankAccountVerifier)
    else None
  }

  /**
   * The requests on which a verifier throws: a bank verifier when a bank field holds a
   * non-string (`.trim()` is not a function), a mock verifier when the field it converts with
   * `String(...)` gets past its presence guard but has no string form. The postal address
   * verifier never converts anything and never throws.
   */
  predicate Throws(v: Verifier, data: Payload): (r: bool)
    ensures r ==> exists key :: key in data && data[key].Other?
  {
    match v
    case EmailVerifier => Unrenderable(data, EMAIL)
    case PhoneNumberVerifier => Unrenderable(data, PHONE_NUMBER)
    case PostalAddressVerifier => false
    case BankAccountVerifier => !BankFieldsAreText(data)
    case BankAccountOwnerVerifier => !BankFieldsAreText(data)
    case SsnVerifier => Unrenderable(data, SSN)
    case BusinessEntityVerifier => Unrenderable(data, EIN) && Truthy(Get(data, NAME))
  }

  /** Runs the verifier a type name was routed to. */
  function Run(v: Verifier, records: seq<BankAccountRecord>, data: Payload): (r: Result<VerifyResult, Fault>)
    ensures r.Failure? <==> Throws(v, data)
    ensures v.EmailVerifier? ==> r == VerifyEmail(data)
    ensures v.PhoneNumberVerifier? ==> r == VerifyPhoneNumber(data)
    ensures v.PostalAddressVerifier? ==> r == Success(VerifyPostalAddress(data))
    ensures v.BankAccountVerifier? ==> r == VerifyBankAccount(records, data)
    ensures v.BankAccountOwnerVerifier? ==> r == VerifyBankAccountOwner(records, data)
    ensures v.SsnVerifier? ==> r == VerifySSN(data)
    ensures v.BusinessEntityVerifier? ==> r == VerifyBusinessEntity(data)
  {
    match v
    case EmailVerifier => VerifyEmail(data)
    case PhoneNumberVerifier => VerifyPhoneNumber(data)
    case PostalAddressVerifier => Success(VerifyPostalAddress(data))
    case BankAccountVerifier => VerifyBankAccount(records, data)
    case BankAccountOwnerVerifier => VerifyBankAccountOwner(records, data)
    case SsnVerifier => VerifySSN(data)
    case BusinessEntityVerifier => VerifyBusinessEntity(data)
  }

  /** `err?.message || err`, rendered by `String(...)`. */
  function FaultMessage(f: Fault): (r: string)
    ensures r != ""
    ensures f.message != "" ==> r == f.message
  {
    if f.message != "" then f.message else "TypeError"
  }

  /** The `try`/`catch`: a verdict is sent with status 200, a thrown exception as a 500 error. */
  function Respond(outcome: Result<VerifyResult, Fault>): (r: Response)
    ensures r.status == 200 <==> outcome.Success?
    ensures outcome.Success? ==> r.body == Verification(outcome.value)
    ensures outcome.Failure? ==> r == Response(500, Error(ErrorResponse(INTERNAL_ERROR, FaultMessage(outcome.error))))
  {
    match outcome
    case Success(result) => Response(200, Verification(result))
    case Failure(f) => Response(500, Error(GenerateErrorResponse(INTERNAL_ERROR, FaultMessage(f))))
  }

  /** A 400 response with the given message. */
  function BadRequest(message: string): (r: Response)
    ensures r.status == 400 && r.body.Error? && r.body.error.code == BAD_REQUEST && r.body.error.message == message
  {
    Response(400, Error(GenerateErrorResponse(BAD_REQUEST, message)))
  }

  /**
   * `verify(req, res)`: a missing or empty `typeName`, then a missing `data`, are rejected with
   * 400; an unknown type name is rejected with 400; otherwise the routed verifier's outcome is
   * sent. The idempotency key is never read.
   */
  function Verify(records: seq<BankAccountRecord>, body: VerifyBody): (r: Response)
    ensures r.status in {200, 400, 500}
    ensures r.status == 200 <==> r.body.Verification?
    ensures !Present(body.typeName) ==> r == BadRequest("Missing typeName in request")
    ensures Present(body.typeName) && body.data.None? ==> r == BadRequest("Missing data in request")
    ensures r.status == 400 <==> !Present(body.typeName) || body.data.None? || body.typeName.value !in VERIFIABLE_TYPES
    ensures Present(body.typeName) && body.data.Some? && body.typeName.value !in VERIFIABLE_TYPES
        ==> r == BadRequest("Type: [" + body.typeName.value + "] is not verifiable")
    ensures r.status == 400 ==> r.body.error.code == BAD_REQUEST
    ensures r.status == 500 ==> r.body.Error? && r.body.error.code == INTERNAL_ERROR
    ensures Present(body.typeName) && body.data.Some? && Route(body.typeName.value).Some?
        ==> r == Respond(Run(Route(body.typeName.value).value, records, body.data.value))
    ensures r.status == 500 <==> (Present(body.typeName) && body.data.Some? && Route(body.typeName.value).Some?
                                  && Throws(Route(body.typeName.value).value, body.data.value))
  {
    if !Present(body.typeName) then BadRequest("Missing typeName in request")
    else if body.data.None? then BadRequest("Missing data in request")
    else
      var typeName := body.typeName.value;
      match Route(typeName)
      case None => BadRequest("Type: [" + typeName + "] is not verifiable")
      case Some(v) => Respond(Run(v, records, body.data.value))
  }

  /** The idempotency key never changes the response. */
  lemma IdempotencyKeyIgnored(records: seq<BankAccountRecord>, body: VerifyBody, key: Option<string>)
    ensures Verify(records, body.(idempotencyKey := key)) == Verify(records, body)
  {
  }

  /** `BankAccountOpening` is answered exactly as `VerifyBankAccountInput` is. */
  lemma BankAccountOpeningAsBankAccountInput(records: seq<BankAccountRecord>, key: Option<string>, data: Option<Payload>)
    ensures Verify(records, VerifyBody(Some("BankAccountOpening"), key, data))
         == Verify(records, VerifyBody(Some("VerifyBankAccountInput"), key, data))
  {
  }

  /** The two bank-account type names are answered with the bank verifier's outcome. */
  lemma BankAccountTypesUseVerifyBankAccount(records: seq<BankAccountRecord>, body: VerifyBody)
    requires body.typeName in {Some("VerifyBankAccountInput"), Some("BankAccountOpening")} && body.data.Some?
    ensures Verify(records, body) == Respond(VerifyBankAccount(records, body.data.value))
  {
    assert Route(body.typeName.value) == Some(BankAccountVerifier);
  }

  /**
   * A mock verifier can throw too: an SSN given as an object whose own `toString` is not a
   * function gets past `!data?.ssn`, and `String(...)` throws, so the answer is a 500.
   */
  lemma UnrenderableSsnIsInternalError(records: seq<BankAccountRecord>, key: Option<string>)
    ensures Verify(records, VerifyBody(Some("VerifySocialSecurityNumberInput"), key, Some(map[SSN := Other(true, None)])))
         == Response(500, Error(ErrorResponse(INTERNAL_ERROR, NO_PRIMITIVE)))
  {
    var data := map[SSN := Other(true, None)];
    assert Unrenderable(data, SSN);
    assert Route("VerifySocialSecurityNumberInput") == Some(SsnVerifier);
  }
}
