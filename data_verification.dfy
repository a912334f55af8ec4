/**
 * The verifiers behind the connected-fields endpoint: the two bank-account matchers, the
 * mock verifiers for e-mail, phone number, postal address, social security number and
 * business entity, and the `redact` helper.
 */
module DataVerification {
  import opened Wrappers
  import opened JsStrings
  import opened BankAccountDatabase

  /**
   * A value of the request's `data` object. A key that is absent or holds JSON null is simply
   * not in the map. A value that is not a string (number, boolean, object, array) is kept only
   * as its truthiness and its `String(value)` rendering; the rendering is None for an object
   * whose conversion to a string throws (one whose own `toString` is not a function).
   */
  datatype Field = Text(text: string) | Other(truthy: bool, rendered: Option<string>)

  type Payload = map<string, Field>

  /** A property of a verifier's result: a field echoed back, or a nested object of fields. */
  datatype Value = Scalar(field: Field) | Object(fields: map<string, Field>)

  /** The result shapes `ok(extra)` = `{matched: true, ...extra}` and `fail(message)` = `{matched: false, message}`. */
  datatype VerifyResult = Ok(extra: map<string, Value>) | Fail(message: string)

  /** An exception thrown while verifying. */
  datatype Fault = TypeError(message: string)

  const MISSING_FIELDS := "Missing one or more required fields"
  const NO_MATCHING_RECORD := "No matching bank account record found"
  const ACCOUNT_BLOCKED := "This account is blocked"
  const ACCOUNT_EXISTS := "This account already exists"
  const ACCOUNT_NOT_FOUND := "Account not found"
  const OWNER_MISMATCH := "Owner mismatch"
  const NO_PRIMITIVE := "Cannot convert object to primitive value"

  const ROUTING_NUMBER := "routingNumber"
  const ACCOUNT_NUMBER := "accountNumber"
  const ACCOUNT_HOLDER_NAME := "accountHolderName"
  const BANK_NAME := "bankName"

  function Get(data: Payload, key: string): Option<Field> {
    if key in data then Some(data[key]) else None
  }

  /** JavaScript truthiness of a possibly absent field; `!x` is its negation. */
  predicate Truthy(f: Option<Field>) {
    match f
    case None => false
    case Some(Text(s)) => s != ""
    case Some(Other(t, _)) => t
  }

  /** `String(x)` of a present field: a string is itself, any other value its rendering or a TypeError. */
  function StringOf(f: Field): (r: Result<string, Fault>)
    ensures f.Text? ==> r == Success(f.text)
    ensures r.Failure? <==> f.Other? && f.rendered.None?
    ensures r.Failure? ==> r.error == TypeError(NO_PRIMITIVE)
  {
    match f
    case Text(s) => Success(s)
    case Other(_, Some(rendered)) => Success(rendered)
    case Other(_, None) => Failure(TypeError(NO_PRIMITIVE))
  }

  /** The field is truthy, so it gets past `!x`, but `String(x)` throws on it. */
  predicate Unrenderable(data: Payload, key: string): (r: bool)
    ensures r ==> key in data && data[key].Other?
  {
    Truthy(Get(data, key)) && StringOf(data[key]).Failure?
  }

  /** Truthiness of an optional string: the same as that string's truthiness as a request field. */
  predicate Present(s: Option<string>): (r: bool)
    ensures r <==> Truthy(if s.Some? then Some(Text(s.value)) else None)
  {
    s.Some? && s.value != ""
  }

  /** The field is absent or holds a string: `data?.[key]?.trim()` does not throw. */
  predicate TextOrAbsent(data: Payload, key: string) {
    key !in data || data[key].Text?
  }

  /** None of the four bank fields holds a non-string value. */
  predicate BankFieldsAreText(data: Payload) {
    TextOrAbsent(data, ROUTING_NUMBER) && TextOrAbsent(data, ACCOUNT_NUMBER)
    && TextOrAbsent(data, ACCOUNT_HOLDER_NAME) && TextOrAbsent(data, BANK_NAME)
  }

  /** The field holds a string that is not whitespace only: it survives `!x.trim()`. */
  predicate Supplied(data: Payload, key: string) {
    key in data && data[key].Text? && !IsBlank(data[key].text)
  }

  /**
   * `data?.[key]?.trim()`: undefined when the key is absent, the trimmed string when it
   * holds one, and a thrown TypeError when it holds anything else.
   */
  function TrimmedField(data: Payload, key: string): (r: Result<Option<string>, Fault>)
    ensures r.Failure? <==> key in data && data[key].Other?
    ensures r.Success? ==> r.value == TrimmedText(data, key)
  {
    if key !in data then Success(None)
    else match data[key]
      case Text(s) => Success(Some(Trim(s)))
      case Other(_, _) => Failure(TypeError("data?." + key + "?.trim is not a function"))
  }

  /**
   * The status gate of `verifyBankAccount`: `blocked` and `existing` reject (blocked is
   * checked first), every other status, and an absent one, accept with no extra properties.
   */
  function StatusGate(status: Option<string>): (r: VerifyResult)
    ensures r.Ok? <==> status != Some("blocked") && status != Some("existing")
    ensures r.Ok? ==> r.extra == map[]
    ensures status == Some("blocked") ==> r == Fail(ACCOUNT_BLOCKED)
    ensures status == Some("existing") ==> r == Fail(ACCOUNT_EXISTS)
    ensures r.Fail? ==> r.message == ACCOUNT_BLOCKED || r.message == ACCOUNT_EXISTS
  {
    if status == Some("blocked") then Fail(ACCOUNT_BLOCKED)
    else if status == Some("existing") then Fail(ACCOUNT_EXISTS)
    else Ok(map[])
  }

  /**
   * The four bank fields after `data?.field?.trim()`: None where the field is undefined.
   * `verifyBankAccount` and `verifyBankAccountOwner` both start by computing this.
   */
  datatype BankAccountInput = BankAccountInput(
    routingNumber: Option<string>,
    accountNumber: Option<string>,
    accountHolderName: Option<string>,
    bankName: Option<string>)
  {
    /** All four fields are truthy after trimming (the guard of `verifyBankAccount`). */
    predicate Complete(): (r: bool)
      ensures r ==> OwnerComplete()
    {
      Present(routingNumber) && Present(accountNumber) && Present(accountHolderName) && Present(bankName)
    }

    /** Routing number, account number and holder name are truthy (the guard of `verifyBankAccountOwner`). */
    predicate OwnerComplete() {
      Present(routingNumber) && Present(accountNumber) && Present(accountHolderName)
    }

    /** The number-only lookup predicate applied to this input. */
    predicate AccountMatch(rec: BankAccountRecord)
      requires OwnerComplete()
    {
      AccountMatches(rec, routingNumber.value, accountNumber.value)
    }

    /** The four-field lookup predicate applied to this input. */
    predicate FullMatch(rec: BankAccountRecord)
      requires Complete()
    {
      FullMatches(rec, routingNumber.value, accountNumber.value, accountHolderName.value, bankName.value)
    }
  }

  /** The value of `data?.[key]?.trim()` when it does not throw. */
  function TrimmedText(data: Payload, key: string): (r: Option<string>)
    ensures Present(r) <==> Supplied(data, key)
  {
    if key in data && data[key].Text? then
      TrimEmptyIffBlank(data[key].text);
      Some(Trim(data[key].text))
    else None
  }

  /**
   * The four `data?.field?.trim()` evaluations, in the order the fields are read: the first field holding a
   * non-string throws, otherwise every field is trimmed.
   */
  function TrimBankAccountInput(data: Payload): (r: Result<BankAccountInput, Fault>)
    ensures r.Failure? <==> !BankFieldsAreText(data)
    ensures r.Success? ==> r.value == BankAccountInput(TrimmedText(data, ROUTING_NUMBER), TrimmedText(data, ACCOUNT_NUMBER),
                                                       TrimmedText(data, ACCOUNT_HOLDER_NAME), TrimmedText(data, BANK_NAME))
  {
    var routingNumber :- TrimmedField(data, ROUTING_NUMBER);
    var accountNumber :- TrimmedField(data, ACCOUNT_NUMBER);
    var accountHolderName :- TrimmedField(data, ACCOUNT_HOLDER_NAME);
    var bankName :- TrimmedField(data, BANK_NAME);
    Success(BankAccountInput(routingNumber, accountNumber, accountHolderName, bankName))
  }

  /** The decision of `verifyBankAccount` once its inputs are trimmed. */
  function MatchBankAccount(records: seq<BankAccountRecord>, input: BankAccountInput): (r: VerifyResult)
    ensures r.Ok? ==> r == Ok(map[])
    ensures !input.Complete() ==> r == Fail(MISSING_FIELDS)
  {
    if !input.Complete() then Fail(MISSING_FIELDS)
    else
      var full := FindByFull(records, input.routingNumber.value, input.accountNumber.value,
                             input.accountHolderName.value, input.bankName.value);
      var record := if full.Some? then full
                    else FindByAccount(records, input.routingNumber.value, input.accountNumber.value);
      match record
      case None => Fail(NO_MATCHING_RECORD)
      case Some(rec) => StatusGate(rec.status)
  }

  /** The decision of `verifyBankAccountOwner` once its inputs are trimmed. */
  function MatchBankAccountOwner(records: seq<BankAccountRecord>, input: BankAccountInput): (r: VerifyResult)
    ensures r.Ok? ==> r == Ok(map[])
    ensures !input.OwnerComplete() ==> r == Fail(MISSING_FIELDS)
  {
    if !input.OwnerComplete() then Fail(MISSING_FIELDS)
    else
      var full :=
        if Present(input.bankName)
        then FindByFull(records, input.routingNumber.value, input.accountNumber.value,
                        input.accountHolderName.value, input.bankName.value)
        else None;
      var record := if full.Some? then full
                    else FindByAccount(records, input.routingNumber.value, input.accountNumber.value);
      match record
      case None => Fail(ACCOUNT_NOT_FOUND)
      case Some(rec) =>
        if Normalize(rec.accountHolderName) == Normalize(input.accountHolderName.value) then Ok(map[])
        else Fail(OWNER_MISMATCH)
  }

  /** `verifyBankAccount(data)` over the loaded records. */
  function VerifyBankAccount(records: seq<BankAccountRecord>, data: Payload): (r: Result<VerifyResult, Fault>)
    ensures r.Failure? <==> !BankFieldsAreText(data)
    ensures r.Success? && r.value.Ok? ==> r.value == Ok(map[])
    ensures r.Success? && !BankFieldsSupplied(data) ==> r.value == Fail(MISSING_FIELDS)
  {
    var input :- TrimBankAccountInput(data);
    Success(MatchBankAccount(records, input))
  }

  /** `verifyBankAccountOwner(data)` over the loaded records. */
  function VerifyBankAccountOwner(records: seq<BankAccountRecord>, data: Payload): (r: Result<VerifyResult, Fault>)
    ensures r.Failure? <==> !BankFieldsAreText(data)
    ensures r.Success? && r.value.Ok? ==> r.value == Ok(map[])
    ensures r.Success? && !OwnerFieldsSupplied(data) ==> r.value == Fail(MISSING_FIELDS)
  {
    var input :- TrimBankAccountInput(data);
    Success(MatchBankAccountOwner(records, input))
  }

  /** Both bank verifiers decide on the trimmed input alone. */
  lemma VerifyTrimsThenMatches(records: seq<BankAccountRecord>, data: Payload, input: BankAccountInput)
    requires TrimBankAccountInput(data) == Success(input)
    ensures VerifyBankAccount(records, data) == Success(MatchBankAccount(records, input))
    ensures VerifyBankAccountOwner(records, data) == Success(MatchBankAccountOwner(records, input))
  {
  }

  /** All four fields `verifyBankAccount` requires are strings that are not whitespace only. */
  predicate BankFieldsSupplied(data: Payload) {
    Supplied(data, ROUTING_NUMBER) && Supplied(data, ACCOUNT_NUMBER)
    && Supplied(data, ACCOUNT_HOLDER_NAME) && Supplied(data, BANK_NAME)
  }

  /** The three fields `verifyBankAccountOwner` requires are strings that are not whitespace only. */
  predicate OwnerFieldsSupplied(data: Payload) {
    Supplied(data, ROUTING_NUMBER) && Supplied(data, ACCOUNT_NUMBER) && Supplied(data, ACCOUNT_HOLDER_NAME)
  }

  /** With every field supplied, the first record matching all four fields decides the outcome. */
  lemma MatchBankAccountPrefersFullMatch(records: seq<BankAccountRecord>, input: BankAccountInput, i: nat)
    requires input.Complete()
    requires i < |records| && input.FullMatch(records[i])
    requires forall j :: 0 <= j < i ==> !input.FullMatch(records[j])
    ensures MatchBankAccount(records, input) == StatusGate(records[i].status)
  {
    FindByFullIsFirst(records, input.routingNumber.value, input.accountNumber.value,
                      input.accountHolderName.value, input.bankName.value, i);
  }

  /**
   * With every field supplied and no record matching all four, the first record with the same
   * routing and account numbers decides the outcome, whatever its holder and bank names.
   */
  lemma MatchBankAccountFallsBackToNumbers(records: seq<BankAccountRecord>, input: BankAccountInput, i: nat)
    requires input.Complete()
    requires forall j :: 0 <= j < |records| ==> !input.FullMatch(records[j])
    requires i < |records| && input.AccountMatch(records[i])
    requires forall j :: 0 <= j < i ==> !input.AccountMatch(records[j])
    ensures MatchBankAccount(records, input) == StatusGate(records[i].status)
  {
    FindByAccountIsFirst(records, input.routingNumber.value, input.accountNumber.value, i);
  }

  /** With every field supplied, "not found" is reported exactly when no record has both numbers. */
  lemma MatchBankAccountNotFound(records: seq<BankAccountRecord>, input: BankAccountInput)
    requires input.Complete()
    ensures MatchBankAccount(records, input) == Fail(NO_MATCHING_RECORD)
        <==> forall j :: 0 <= j < |records| ==> !input.AccountMatch(records[j])
  {
    var rn, an := input.routingNumber.value, input.accountNumber.value;
    var full := FindByFull(records, rn, an, input.accountHolderName.value, input.bankName.value);
    var loose := FindByAccount(records, rn, an);
    FullMatchImpliesAccountMatch(records, rn, an, input.accountHolderName.value, input.bankName.value);
    if loose.Some? {
      var rec := if full.Some? then full.value else loose.value;
      assert MatchBankAccount(records, input) == StatusGate(rec.status);
      assert NO_MATCHING_RECORD != ACCOUNT_BLOCKED && NO_MATCHING_RECORD != ACCOUNT_EXISTS;
    }
  }

  /**
   * A match is only ever reported for an account on file: all four fields were supplied and
   * some record has the trimmed routing and account numbers and is neither blocked nor existing.
   */
  lemma MatchBankAccountMatchedIsOnFile(records: seq<BankAccountRecord>, input: BankAccountInput)
    requires MatchBankAccount(records, input).Ok?
    ensures input.Complete()
    ensures exists i :: (0 <= i < |records| && input.AccountMatch(records[i])
      && records[i].status != Some("blocked") && records[i].status != Some("existing"))
  {
    var full := FindByFull(records, input.routingNumber.value, input.accountNumber.value,
                           input.accountHolderName.value, input.bankName.value);
    var rec := if full.Some? then full.value
               else FindByAccount(records, input.routingNumber.value, input.accountNumber.value).value;
    var i :| 0 <= i < |records| && records[i] == rec;
    assert input.AccountMatch(records[i]);
  }

  /** The four bank field names are four different keys of the request data. */
  lemma BankFieldNamesDistinct()
    ensures ROUTING_NUMBER != ACCOUNT_NUMBER && ROUTING_NUMBER != ACCOUNT_HOLDER_NAME && ROUTING_NUMBER != BANK_NAME
    ensures ACCOUNT_NUMBER != ACCOUNT_HOLDER_NAME && ACCOUNT_NUMBER != BANK_NAME && ACCOUNT_HOLDER_NAME != BANK_NAME
  {
    assert ROUTING_NUMBER[0] == 'r' && ACCOUNT_NUMBER[0] == 'a' && BANK_NAME[0] == 'b';
    assert ACCOUNT_NUMBER[7] == 'N' && ACCOUNT_HOLDER_NAME[7] == 'H';
  }

  /** A non-empty string with no whitespace at either end: `trim` leaves it as it is. */
  predicate Unpadded(s: string) {
    s != [] && !IsWhiteSpace(s[0]) && !IsWhiteSpace(s[|s| - 1])
  }

  /** The request carrying a record's own four fields, as strings. */
  function RequestFor(rec: BankAccountRecord): Payload {
    map[ROUTING_NUMBER := Text(rec.routingNumber), ACCOUNT_NUMBER := Text(rec.accountNumber),
        ACCOUNT_HOLDER_NAME := Text(rec.accountHolderName), BANK_NAME := Text(rec.bankName)]
  }

  lemma TrimRequestFor(rec: BankAccountRecord)
    requires Unpadded(rec.routingNumber) && Unpadded(rec.accountNumber)
    ensures TrimBankAccountInput(RequestFor(rec)) == Success(BankAccountInput(
      Some(rec.routingNumber), Some(rec.accountNumber), Some(Trim(rec.accountHolderName)), Some(Trim(rec.bankName))))
  {
    var data := RequestFor(rec);
    assert data[ROUTING_NUMBER] == Text(rec.routingNumber)
        && data[ACCOUNT_NUMBER] == Text(rec.accountNumber)
        && data[ACCOUNT_HOLDER_NAME] == Text(rec.accountHolderName)
        && data[BANK_NAME] == Text(rec.bankName) by {
      BankFieldNamesDistinct();
    }
    assert BankFieldsAreText(data);
    assert TrimmedText(data, ROUTING_NUMBER) == Some(rec.routingNumber) by {
      TrimUnpadded(rec.routingNumber);
    }
    assert TrimmedText(data, ACCOUNT_NUMBER) == Some(rec.accountNumber) by {
      TrimUnpadded(rec.accountNumber);
    }
  }

  /**
   * Verifying with a stored record's own fields: when the record's numbers carry no surrounding
   * whitespace, its names are not blank, and no earlier record matches it on all four fields, its
   * status alone decides the outcome (blocked and existing reject, active or absent accept). An
   * earlier record with the same numbers but another holder or bank name does not get in the way.
   */
  lemma VerifyBankAccountOwnRecord(records: seq<BankAccountRecord>, i: nat)
    requires i < |records|
    requires Unpadded(records[i].routingNumber) && Unpadded(records[i].accountNumber)
    requires !IsBlank(records[i].accountHolderName) && !IsBlank(records[i].bankName)
    requires forall j :: 0 <= j < i ==> !FullMatches(records[j], records[i].routingNumber, records[i].accountNumber,
                                                     records[i].accountHolderName, records[i].bankName)
    ensures VerifyBankAccount(records, RequestFor(records[i])) == Success(StatusGate(records[i].status))
  {
    var rec := records[i];
    TrimRequestFor(rec);
    var input := BankAccountInput(Some(rec.routingNumber), Some(rec.accountNumber),
                                  Some(Trim(rec.accountHolderName)), Some(Trim(rec.bankName)));
    assert input.Complete() by {
      TrimEmptyIffBlank(rec.accountHolderName);
      TrimEmptyIffBlank(rec.bankName);
    }
    assert input.FullMatch(rec) by {
      NormalizeTrim(rec.accountHolderName);
      NormalizeTrim(rec.bankName);
    }
    NormalizeTrim(rec.accountHolderName);
    NormalizeTrim(rec.bankName);
    forall j | 0 <= j < i ensures !input.FullMatch(records[j]) {
      assert !FullMatches(records[j], rec.routingNumber, rec.accountNumber, rec.accountHolderName, rec.bankName);
    }
    MatchBankAccountPrefersFullMatch(records, input, i);
  }

  /** When a bank name is supplied and some record matches all four fields, the owner check passes. */
  lemma MatchBankAccountOwnerFullMatchPasses(records: seq<BankAccountRecord>, input: BankAccountInput, i: nat)
    requires input.Complete()
    requires i < |records| && input.FullMatch(records[i])
    ensures MatchBankAccountOwner(records, input) == Ok(map[])
  {
    assert FindByFull(records, input.routingNumber.value, input.accountNumber.value,
                      input.accountHolderName.value, input.bankName.value).Some?;
  }

  /**
   * Without a usable full match (no bank name, or no record matching all four fields) the
   * first record with the same numbers is taken, and its holder name alone decides.
   */
  lemma MatchBankAccountOwnerFallsBack(records: seq<BankAccountRecord>, input: BankAccountInput, i: nat)
    requires input.OwnerComplete()
    requires !Present(input.bankName) || forall j :: 0 <= j < |records| ==> !input.FullMatch(records[j])
    requires i < |records| && input.AccountMatch(records[i])
    requires forall j :: 0 <= j < i ==> !input.AccountMatch(records[j])
    ensures MatchBankAccountOwner(records, input) ==
      if Normalize(records[i].accountHolderName) == Normalize(input.accountHolderName.value)
      then Ok(map[]) else Fail(OWNER_MISMATCH)
  {
    FindByAccountIsFirst(records, input.routingNumber.value, input.accountNumber.value, i);
  }

  /** "Account not found" is reported exactly when no record has both numbers. */
  lemma MatchBankAccountOwnerNotFound(records: seq<BankAccountRecord>, input: BankAccountInput)
    requires input.OwnerComplete()
    ensures MatchBankAccountOwner(records, input) == Fail(ACCOUNT_NOT_FOUND)
        <==> forall j :: 0 <= j < |records| ==> !input.AccountMatch(records[j])
  {
    if Present(input.bankName) {
      FullMatchImpliesAccountMatch(records, input.routingNumber.value, input.accountNumber.value,
                                   input.accountHolderName.value, input.bankName.value);
    }
  }

  /**
   * "Owner mismatch" only comes from the number-only fallback: no bank name was supplied or
   * no record matched all four fields, and the first record with the numbers has another holder.
   */
  lemma OwnerMismatchOnlyFromFallback(records: seq<BankAccountRecord>, input: BankAccountInput)
    requires MatchBankAccountOwner(records, input) == Fail(OWNER_MISMATCH)
    ensures input.OwnerComplete()
    ensures Present(input.bankName) ==> forall j :: 0 <= j < |records| ==> !input.FullMatch(records[j])
    ensures exists i :: (0 <= i < |records| && input.AccountMatch(records[i])
      && Normalize(records[i].accountHolderName) != Normalize(input.accountHolderName.value))
  {
    if Present(input.bankName) {
      forall j | 0 <= j < |records| ensures !input.FullMatch(records[j]) {
        if input.FullMatch(records[j]) {
          MatchBankAccountOwnerFullMatchPasses(records, input, j);
        }
      }
    }
    var rec := FindByAccount(records, input.routingNumber.value, input.accountNumber.value).value;
    var i :| 0 <= i < |records| && records[i] == rec;
    assert input.AccountMatch(records[i]);
  }

  /** `verifyBankAccountOwner` never reads `status`: records differing only in status give the same answer. */
  lemma MatchBankAccountOwnerIgnoresStatus(records: seq<BankAccountRecord>, restatused: seq<BankAccountRecord>,
                                           input: BankAccountInput)
    requires |restatused| == |records|
    requires forall j :: 0 <= j < |records| ==> restatused[j] == records[j].(status := restatused[j].status)
    ensures MatchBankAccountOwner(records, input) == MatchBankAccountOwner(restatused, input)
  {
    if input.OwnerComplete() {
      var rn, an, hn := input.routingNumber.value, input.accountNumber.value, input.accountHolderName.value;
      FirstIndexCongruent(records, rec => AccountMatches(rec, rn, an), restatused, rec => AccountMatches(rec, rn, an));
      if Present(input.bankName) {
        var bn := input.bankName.value;
        FirstIndexCongruent(records, rec => FullMatches(rec, rn, an, hn, bn),
                            restatused, rec => FullMatches(rec, rn, an, hn, bn));
      }
    }
  }

  /** After a failed load (no records), every complete request is reported as not found. */
  lemma FailedLoadFindsNothing(input: BankAccountInput)
    ensures input.Complete() ==> MatchBankAccount([], input) == Fail(NO_MATCHING_RECORD)
    ensures input.OwnerComplete() ==> MatchBankAccountOwner([], input) == Fail(ACCOUNT_NOT_FOUND)
  {
    if input.Complete() {
      MatchBankAccountNotFound([], input);
    }
    if input.OwnerComplete() {
      MatchBankAccountOwnerNotFound([], input);
    }
  }

  /** The single account of the worked example below. */
  function JohnDoe(): BankAccountRecord {
    BankAccountRecord("1", "111000025", "1234567890", "John Doe", "Bank of America", Some("active"))
  }

  /** Visible ASCII characters are not whitespace. */
  lemma VisibleNotWhiteSpace(c: char)
    requires '!' <= c <= '~'
    ensures !IsWhiteSpace(c)
  {
  }

  /** A non-empty string that starts and ends with visible ASCII characters is unpadded. */
  lemma VisibleEnds(s: string)
    requires s != [] && '!' <= s[0] <= '~' && '!' <= s[|s| - 1] <= '~'
    ensures Unpadded(s)
  {
    VisibleNotWhiteSpace(s[0]);
    VisibleNotWhiteSpace(s[|s| - 1]);
  }

  lemma JohnDoeFields()
    ensures Unpadded(JohnDoe().routingNumber) && Unpadded(JohnDoe().accountNumber)
    ensures Unpadded(JohnDoe().accountHolderName) && Unpadded(JohnDoe().bankName) && Unpadded("Jane Doe")
  {
    VisibleEnds(JohnDoe().routingNumber);
    VisibleEnds(JohnDoe().accountNumber);
    VisibleEnds(JohnDoe().accountHolderName);
    VisibleEnds(JohnDoe().bankName);
    VisibleEnds("Jane Doe");
  }

  lemma JaneIsNotJohn()
    ensures Normalize("Jane Doe") != Normalize("John Doe")
  {
    var jane, john := ToLower("Jane Doe"), ToLower("John Doe");
    assert jane[0] == 'j' && jane[7] == 'e' && john[0] == 'j' && john[7] == 'e';
    VisibleEnds(jane);
    VisibleEnds(john);
    TrimUnpadded(jane);
    TrimUnpadded(john);
    assert jane[1] != john[1];
  }

  lemma UnpaddedNotBlank(s: string)
    requires Unpadded(s)
    ensures !IsBlank(s) && Trim(s) == s
  {
    assert s[0] in s;
    TrimUnpadded(s);
  }

  /** Example: the stored account's own fields verify. */
  lemma JohnDoeVerifies()
    ensures VerifyBankAccount([JohnDoe()], RequestFor(JohnDoe())) == Success(Ok(map[]))
  {
    JohnDoeFields();
    UnpaddedNotBlank(JohnDoe().accountHolderName);
    UnpaddedNotBlank(JohnDoe().bankName);
    VerifyBankAccountOwnRecord([JohnDoe()], 0);
  }

  /** The trimmed input of the John Doe request with the holder name changed to "Jane Doe". */
  function JaneDoeInput(): BankAccountInput {
    BankAccountInput(Some("111000025"), Some("1234567890"), Some("Jane Doe"), Some("Bank of America"))
  }

  lemma JaneDoeRequestTrims()
    ensures TrimBankAccountInput(RequestFor(JohnDoe().(accountHolderName := "Jane Doe"))) == Success(JaneDoeInput())
  {
    JohnDoeFields();
    UnpaddedNotBlank("Jane Doe");
    UnpaddedNotBlank(JohnDoe().bankName);
    TrimRequestFor(JohnDoe().(accountHolderName := "Jane Doe"));
  }

  /**
   * Example: with the holder name changed to "Jane Doe" the opening check still matches on the
   * number pair of the active account, while the ownership check reports an owner mismatch.
   */
  lemma JaneDoeExample()
    ensures MatchBankAccount([JohnDoe()], JaneDoeInput()) == Ok(map[])
    ensures MatchBankAccountOwner([JohnDoe()], JaneDoeInput()) == Fail(OWNER_MISMATCH)
  {
    var input := JaneDoeInput();
    assert input.Complete() && input.AccountMatch(JohnDoe());
    assert !input.FullMatch(JohnDoe()) by { JaneIsNotJohn(); }
    MatchBankAccountFallsBackToNumbers([JohnDoe()], input, 0);
    MatchBankAccountOwnerFallsBack([JohnDoe()], input, 0);
  }

  // ---- The mock verifiers for the other connected-field types ----

  const EMAIL := "email"
  const PHONE_NUMBER := "phoneNumber"
  const SSN := "ssn"
  const EIN := "ein"
  const NAME := "name"
  const ADDRESS_FIELDS := ["line1", "city", "state", "postalCode", "country"]

  /**
   * `verifyEmail(data)`: the field must be truthy and its string form must match the e-mail
   * pattern; `test` converts the value to a string first, which throws when it has no string form.
   */
  function VerifyEmail(data: Payload): (r: Result<VerifyResult, Fault>)
    ensures r.Failure? <==> Unrenderable(data, EMAIL)
    ensures r.Failure? ==> r.error == TypeError(NO_PRIMITIVE)
    ensures !Truthy(Get(data, EMAIL)) ==> r == Success(Fail("Missing email"))
    ensures r.Success? && r.value.Ok? <==>
      Truthy(Get(data, EMAIL)) && StringOf(data[EMAIL]).Success? && MatchesEmailPattern(StringOf(data[EMAIL]).value)
    ensures r.Success? && r.value.Ok? ==> r.value.extra == map[EMAIL := Scalar(data[EMAIL])]
    ensures r.Success? && r.value.Fail? && Truthy(Get(data, EMAIL)) ==> r.value.message == "Invalid email format"
  {
    if !Truthy(Get(data, EMAIL)) then Success(Fail("Missing email"))
    else
      var email :- StringOf(data[EMAIL]);
      if MatchesEmailPattern(email) then Success(Ok(map[EMAIL := Scalar(data[EMAIL])]))
      else Success(Fail("Invalid email format"))
  }

  /** `verifyPhoneNumber(data)`: at least ten digits once every non-digit is removed. */
  function VerifyPhoneNumber(data: Payload): (r: Result<VerifyResult, Fault>)
    ensures r.Failure? <==> Unrenderable(data, PHONE_NUMBER)
    ensures r.Failure? ==> r.error == TypeError(NO_PRIMITIVE)
    ensures !Truthy(Get(data, PHONE_NUMBER)) ==> r == Success(Fail("Missing phoneNumber"))
    ensures r.Success? && r.value.Ok? <==>
      Truthy(Get(data, PHONE_NUMBER)) && StringOf(data[PHONE_NUMBER]).Success?
      && |Digits(StringOf(data[PHONE_NUMBER]).value)| >= 10
    ensures r.Success? && r.value.Ok? ==> r.value.extra == map[PHONE_NUMBER := Scalar(data[PHONE_NUMBER])]
    ensures r.Success? && r.value.Fail? && Truthy(Get(data, PHONE_NUMBER)) ==> r.value.message == "Invalid phone number"
  {
    if !Truthy(Get(data, PHONE_NUMBER)) then Success(Fail("Missing phoneNumber"))
    else
      var phoneNumber :- StringOf(data[PHONE_NUMBER]);
      if |Digits(phoneNumber)| >= 10 then Success(Ok(map[PHONE_NUMBER := Scalar(data[PHONE_NUMBER])]))
      else Success(Fail("Invalid phone number"))
  }

  /** `verifyPostalAddress(data)`: all five address fields truthy; they are echoed back under `address`. */
  function VerifyPostalAddress(data: Payload): (r: VerifyResult)
    ensures r.Ok? <==> forall k :: k in ADDRESS_FIELDS ==> Truthy(Get(data, k))
    ensures r.Fail? ==> r.message == "Missing address fields"
    ensures r.Ok? ==> r.extra.Keys == {"address"} && r.extra["address"].Object?
    ensures r.Ok? ==> forall k :: k in r.extra["address"].fields ==> k in ADDRESS_FIELDS
    ensures r.Ok? ==> forall k :: k in ADDRESS_FIELDS ==>
      k in data && k in r.extra["address"].fields && r.extra["address"].fields[k] == data[k]
  {
    if !Truthy(Get(data, "line1")) || !Truthy(Get(data, "city")) || !Truthy(Get(data, "state"))
       || !Truthy(Get(data, "postalCode")) || !Truthy(Get(data, "country"))
    then Fail("Missing address fields")
    else
      Ok(map["address" := Object(map["line1" := data["line1"], "city" := data["city"], "state" := data["state"],
                                      "postalCode" := data["postalCode"], "country" := data["country"]])])
  }

  /** The masked form `***-**-` + the last four digits. */
  function MaskSsn(digits: string): (r: string)
    requires |digits| == 9
    ensures |r| == 11 && r[..7] == "***-**-" && r[7..] == digits[5..]
  {
    "***-**-" + LastFour(digits)
  }

  /** `verifySSN(data)`: exactly nine digits once every non-digit is removed; only the last four are echoed. */
  function VerifySSN(data: Payload): (r: Result<VerifyResult, Fault>)
    ensures r.Failure? <==> Unrenderable(data, SSN)
    ensures r.Failure? ==> r.error == TypeError(NO_PRIMITIVE)
    ensures !Truthy(Get(data, SSN)) ==> r == Success(Fail("Missing ssn"))
    ensures r.Success? && r.value.Ok? <==>
      Truthy(Get(data, SSN)) && StringOf(data[SSN]).Success? && |Digits(StringOf(data[SSN]).value)| == 9
    ensures r.Success? && r.value.Ok? ==>
      r.value.extra.Keys == {SSN} && r.value.extra[SSN].Scalar? && r.value.extra[SSN].field.Text?
    ensures r.Success? && r.value.Ok? ==> r.value.extra[SSN].field.text == MaskSsn(Digits(StringOf(data[SSN]).value))
    ensures r.Success? && r.value.Fail? && Truthy(Get(data, SSN)) ==> r.value.message == "Invalid SSN"
  {
    if !Truthy(Get(data, SSN)) then Success(Fail("Missing ssn"))
    else
      var ssn :- StringOf(data[SSN]);
      var digits := Digits(ssn);
      if |digits| == 9 then Success(Ok(map[SSN := Scalar(Text(MaskSsn(digits)))])) else Success(Fail("Invalid SSN"))
  }

  /** `verifyBusinessEntity(data)`: both fields truthy and an EIN of exactly nine digits. */
  function VerifyBusinessEntity(data: Payload): (r: Result<VerifyResult, Fault>)
    ensures r.Failure? <==> Unrenderable(data, EIN) && Truthy(Get(data, NAME))
    ensures r.Failure? ==> r.error == TypeError(NO_PRIMITIVE)
    ensures !Truthy(Get(data, EIN)) || !Truthy(Get(data, NAME)) ==> r == Success(Fail("Missing ein or name"))
    ensures r.Success? && r.value.Ok? <==>
      Truthy(Get(data, EIN)) && Truthy(Get(data, NAME)) && StringOf(data[EIN]).Success?
      && |Digits(StringOf(data[EIN]).value)| == 9
    ensures r.Success? && r.value.Ok? ==> r.value.extra == map[EIN := Scalar(data[EIN]), NAME := Scalar(data[NAME])]
    ensures r.Success? && r.value.Fail? && Truthy(Get(data, EIN)) && Truthy(Get(data, NAME))
      ==> r.value.message == "Invalid EIN"
  {
    if !Truthy(Get(data, EIN)) || !Truthy(Get(data, NAME)) then Success(Fail("Missing ein or name"))
    else
      var ein :- StringOf(data[EIN]);
      if |Digits(ein)| == 9 then Success(Ok(map[EIN := Scalar(data[EIN]), NAME := Scalar(data[NAME])]))
      else Success(Fail("Invalid EIN"))
  }

  /** The record as `redact` returns it: account number masked, status defaulted. */
  datatype RedactedRecord = RedactedRecord(
    id: string,
    routingNumber: string,
    accountNumber: string,
    accountHolderName: string,
    bankName: string,
    status: string)

  /**
   * `redact(record)`: eight '*' followed by at most the last four characters of the account
   * number, status "active" when absent, every other field copied.
   */
  function Redact(rec: BankAccountRecord): (r: RedactedRecord)
    ensures |r.accountNumber| == 8 + (if |rec.accountNumber| < 4 then |rec.accountNumber| else 4)
    ensures forall i :: 0 <= i < 8 ==> r.accountNumber[i] == '*'
    ensures rec.accountNumber == rec.accountNumber[..|rec.accountNumber| - (|r.accountNumber| - 8)] + r.accountNumber[8..]
    ensures r.status == (if rec.status.Some? then rec.status.value else "active")
    ensures r.id == rec.id && r.routingNumber == rec.routingNumber
    ensures r.accountHolderName == rec.accountHolderName && r.bankName == rec.bankName
  {
    var last4 := LastFour(rec.accountNumber);
    RedactedRecord(rec.id, rec.routingNumber, "********" + last4, rec.accountHolderName, rec.bankName,
                   if rec.status.Some? then rec.status.value else "active")
  }
}
