# Connected-fields bank account verification, modelled in Dafny

This project models the verification core of a small connected-fields extension service. The service answers `POST /connected-fields/verify` requests. A request names a verification type (`typeName`) and carries the raw fields (`data`). The handler routes it to a verifier and answers with an HTTP status and a JSON body.

The model has four modules:

- `JsStrings` (`js_strings.dfy`) covers the pieces of JavaScript's string library the verifiers rely on:
  - `trim`, over the ECMAScript whitespace and line-terminator set;
  - `toLowerCase`, ASCII only;
  - `replace(/\D/g, "")` and `slice(-4)`;
  - the e-mail regular expression `/^[^\s@]+@[^\s@]+\.[^\s@]+$/`.
- `BankAccountDatabase` (`bank_account_database.dfy`) covers the record store:
  - the `BankAccountRecord` entity;
  - the two first-match lookups, `findByAccount` (numbers only) and `findByFull` (numbers, plus holder and bank names compared after `toLowerCase().trim()`).
- `DataVerification` (`data_verification.dfy`) covers the verifiers:
  - `verifyBankAccount` (account opening), which tries a full match first, falls back to a number-only match, and then lets the record's status decide (`blocked`, then `existing`, reject);
  - `verifyBankAccountOwner`, which is the same lookup, except that the full match is only tried when a bank name is supplied, and the holder name decides;
  - the mock verifiers for e-mail, phone number, postal address, SSN and business entity;
  - `redact`.

  Each bank verifier is split into two stages. The first evaluates `data?.field?.trim()` on all four fields; a non-string field throws a TypeError. The second is the decision over the trimmed fields.
- `ConnectedFields` (`connected_fields.dfy`) covers the request handler `verify`. It applies two guards: a missing or empty `typeName`, then missing `data`, get 400. It then does the `switch` on the type name, and an unknown name gets 400. Last comes the `try`/`catch`: a verdict is sent with 200, a thrown exception as a 500 `INTERNAL_ERROR`.

`Wrappers` (`wrappers.dfy`) holds the `Option` and `Result` types.

Request data is a map from field name to `Field`. A JSON null and an absent key are both "not in the map". A string is kept as `Text`. Any other JSON value is `Other`: its truthiness (what the `!x` guards test) and its `String(...)` rendering (what the mock verifiers convert). The rendering is absent for an object whose own `toString` is not a function, because converting such an object throws a TypeError. The mock verifiers can therefore throw as well as the bank verifiers, and the handler answers such a request with 500. A verifier that echoes a field echoes this `Field` value as it arrived.

The loaded records are an explicit `records` parameter. A failed load gives the empty sequence.

The code returns `{matched: true}` or `{matched: false, message}`. A doc comment above `verifyBankAccountOwner` also mentions `ownerMatched` and `status` fields that the code never returns. The model follows the code: `VerifyResult` is `Ok(extra)` or `Fail(message)`.

## Model

| member | source | states |
|---|---|---|
| BankAccountDatabase.FirstIndex | src/db/bankAccountDatabase.ts:34-37 | `find`'s scan: the returned index satisfies the predicate, no earlier index does, and there is no index exactly when no element satisfies it |
| BankAccountDatabase.Find | src/db/bankAccountDatabase.ts:34-37 | `find` returns undefined exactly when no element satisfies the predicate |
| BankAccountDatabase.FindIsFirst | src/db/bankAccountDatabase.ts:34-37 | `find` returns the element at the first index whose element satisfies the predicate |
| BankAccountDatabase.AccountMatches | src/db/bankAccountDatabase.ts:35-36 | the `findByAccount` predicate: both numbers equal the query exactly, with no trimming or case folding |
| BankAccountDatabase.FullMatches | src/db/bankAccountDatabase.ts:47-52 | the `findByFull` predicate: a full match is always a number match, and the names are compared by their `toLowerCase().trim()` keys |
| BankAccountDatabase.FindByAccount | src/db/bankAccountDatabase.ts:30-38 | the record found is a stored one whose routing and account numbers both equal the query; none is found exactly when no stored record has both |
| BankAccountDatabase.FindByFull | src/db/bankAccountDatabase.ts:40-54 | the record found is stored, has both numbers exactly, and has holder and bank names equal to the query after `toLowerCase().trim()`; none is found exactly when no record matches all four |
| BankAccountDatabase.FirstIndexCongruent | src/db/bankAccountDatabase.ts:34-37 | two scans that give the same answer on corresponding elements stop at the same index |
| BankAccountDatabase.FindByAccountIsFirst | src/db/bankAccountDatabase.ts:30-38 | `findByAccount` returns the first stored record with both numbers, even when later records also have them |
| BankAccountDatabase.FindByFullIsFirst | src/db/bankAccountDatabase.ts:40-54 | `findByFull` returns the first stored record that matches all four fields |
| BankAccountDatabase.FullMatchImpliesAccountMatch | src/db/bankAccountDatabase.ts:40-54 | whenever `findByFull` finds a record, `findByAccount` on the same numbers finds one too, at the same position or an earlier one |
| BankAccountDatabase.FindByFullNormalizesNames | src/db/bankAccountDatabase.ts:50-52 | queries whose holder and bank names normalise alike find the same record |
| BankAccountDatabase.FindByFullExample | src/db/bankAccountDatabase.ts:46-53 | the query " john doe " with bank "Bank of America" finds the stored "John Doe" record |
| JsStrings.TrimStart | src/utils/dataVerification.ts:100-103 | the result is a suffix of the input, everything cut is whitespace, and the result does not start with whitespace |
| JsStrings.TrimEnd | src/utils/dataVerification.ts:100-103 | the result is a prefix of the input, everything cut is whitespace, and the result does not end with whitespace |
| JsStrings.Trim | src/utils/dataVerification.ts:100-103 | `trim()`: the result is no longer than the input and neither starts nor ends with whitespace |
| JsStrings.TrimSplits | src/utils/dataVerification.ts:100-103 | the input is a whitespace-only prefix, then the trimmed string, then a whitespace-only suffix |
| JsStrings.TrimUnique | src/utils/dataVerification.ts:100-103 | any blank padding around a core that neither starts nor ends with whitespace trims back to exactly that core |
| JsStrings.TrimUnpadded | src/utils/dataVerification.ts:100-103 | a string with no whitespace at either end is its own trim |
| JsStrings.TrimPadded | src/utils/dataVerification.ts:100-103 | adding whitespace around a string does not change what it trims to |
| JsStrings.TrimEmptyIffBlank | src/utils/dataVerification.ts:105-107 | a string trims to "" (a falsy value) exactly when it is whitespace only |
| JsStrings.TrimIdempotent | src/utils/dataVerification.ts:100-103 | trimming twice is the same as trimming once |
| JsStrings.LowerChar | src/db/bankAccountDatabase.ts:50-52 | upper-case ASCII letters map to lower case, every other character is unchanged, and whitespace stays whitespace |
| JsStrings.ToLower | src/db/bankAccountDatabase.ts:50-52 | `toLowerCase()` keeps the length and folds each character |
| JsStrings.TrimToLowerCommute | src/db/bankAccountDatabase.ts:50-52 | lower-casing and trimming commute |
| JsStrings.Normalize | src/db/bankAccountDatabase.ts:50-52 | `toLowerCase().trim()`, the key names are compared by (also at src/utils/dataVerification.ts:159-161) |
| JsStrings.NormalizeTrim | src/utils/dataVerification.ts:159-161 | normalising a trimmed name gives the same key as normalising the raw name |
| JsStrings.NormalizeIgnoresCaseAndPadding | src/db/bankAccountDatabase.ts:50-52 | names that differ only in ASCII case and surrounding whitespace normalise alike |
| JsStrings.Digits | src/utils/dataVerification.ts:42 | `replace(/\D/g, "")`: the result is all digits, no longer than the input, and unchanged when the input is all digits |
| JsStrings.DigitsAppend | src/utils/dataVerification.ts:42 | digit extraction distributes over concatenation |
| JsStrings.DigitsOfNonDigits | src/utils/dataVerification.ts:42 | a string without digits yields "" |
| JsStrings.DigitsIgnoreSeparators | src/utils/dataVerification.ts:42 | inserting separators (spaces, dashes, parentheses) does not change the digits |
| JsStrings.LastFour | src/utils/dataVerification.ts:72 | `slice(-4)`: the last four characters, or the whole string when it is shorter |
| JsStrings.MatchesEmailPattern | src/utils/dataVerification.ts:35 | `/^[^\s@]+@[^\s@]+\.[^\s@]+$/`: a non-empty run without whitespace or '@', one '@', then a run without whitespace or '@' holding a '.' that is neither its first nor its last character |
| JsStrings.EmailPatternShape | src/utils/dataVerification.ts:35 | an address the e-mail pattern accepts has no whitespace and exactly one '@' |
| DataVerification.Truthy | src/utils/dataVerification.ts:33 | JavaScript truthiness of a request field, as `!x` tests it: absent, null and "" are falsy, another string is truthy, and a non-string has its own truthiness |
| DataVerification.Present | src/services/connectedfields.ts:107 | truthiness of an optional string, as `!typeName` and the guards on the trimmed bank fields test it: the same as that string's truthiness as a request field |
| DataVerification.StringOf | src/utils/dataVerification.ts:42 | `String(x)`: a string is itself, another value its rendering, and a value with no string form throws a TypeError |
| DataVerification.Unrenderable | src/utils/dataVerification.ts:69-71 | the field gets past its presence guard but `String(...)` throws on it; only a non-string field can be like that |
| DataVerification.TrimmedField | src/utils/dataVerification.ts:100-103 | `data?.[key]?.trim()` throws exactly when the field holds a non-string; otherwise it is undefined for an absent field or the trimmed string |
| DataVerification.TrimmedText | src/utils/dataVerification.ts:100-103 | the trimmed value is truthy exactly when the field holds a string that is not whitespace only |
| DataVerification.BankAccountInput.Complete | src/utils/dataVerification.ts:105 | the opening guard: all four trimmed fields are truthy; it is stricter than the ownership guard |
| DataVerification.BankAccountInput.OwnerComplete | src/utils/dataVerification.ts:146 | the ownership guard: routing number, account number and holder name are truthy after trimming; the bank name is optional |
| DataVerification.StatusGate | src/utils/dataVerification.ts:118-126 | `blocked` rejects with "This account is blocked", `existing` with "This account already exists", and every other or absent status accepts with no extra properties |
| DataVerification.TrimBankAccountInput | src/utils/dataVerification.ts:100-103 | the four trims throw exactly when one of the bank fields holds a non-string; otherwise they give the four trimmed values |
| DataVerification.MatchBankAccount | src/utils/dataVerification.ts:105-126 | a missing field gives "Missing one or more required fields"; a match carries no extra properties |
| DataVerification.MatchBankAccountOwner | src/utils/dataVerification.ts:146-168 | a missing number or holder name gives "Missing one or more required fields"; a match carries no extra properties |
| DataVerification.VerifyBankAccount | src/utils/dataVerification.ts:94-127 | throws exactly when a bank field holds a non-string; a request without all four fields supplied is answered "Missing one or more required fields"; a match is `{matched: true}` only |
| DataVerification.VerifyBankAccountOwner | src/utils/dataVerification.ts:135-169 | throws exactly when a bank field holds a non-string; a request without both numbers and the holder name is answered "Missing one or more required fields"; a match is `{matched: true}` only |
| DataVerification.VerifyTrimsThenMatches | src/utils/dataVerification.ts:94-169 | both bank verifiers decide on the trimmed fields alone |
| DataVerification.MatchBankAccountPrefersFullMatch | src/utils/dataVerification.ts:109-126 | when some record matches all four fields, the first such record's status decides |
| DataVerification.MatchBankAccountFallsBackToNumbers | src/utils/dataVerification.ts:109-126 | when no record matches all four fields, the first record with both numbers decides, whatever its holder name |
| DataVerification.MatchBankAccountNotFound | src/utils/dataVerification.ts:109-115 | "No matching bank account record found" is reported exactly when no record has both numbers |
| DataVerification.MatchBankAccountMatchedIsOnFile | src/utils/dataVerification.ts:105-126 | a match is only reported when all fields were supplied and some record has both numbers and is neither blocked nor existing |
| DataVerification.TrimRequestFor | src/utils/dataVerification.ts:100-103 | a request made of a record's own fields trims back to those fields |
| DataVerification.VerifyBankAccountOwnRecord | src/utils/dataVerification.ts:94-127 | a request with a stored record's own fields is decided by that record's status alone, unless an earlier record matches it on all four fields; an earlier record with the same numbers but other names does not get in the way |
| DataVerification.MatchBankAccountOwnerFullMatchPasses | src/utils/dataVerification.ts:150-168 | with a bank name supplied and a record matching all four fields, the owner check passes |
| DataVerification.MatchBankAccountOwnerFallsBack | src/utils/dataVerification.ts:150-165 | without a usable full match, the first record with both numbers is taken and its holder name alone decides |
| DataVerification.MatchBankAccountOwnerNotFound | src/utils/dataVerification.ts:150-157 | "Account not found" is reported exactly when no record has both numbers |
| DataVerification.OwnerMismatchOnlyFromFallback | src/utils/dataVerification.ts:150-165 | "Owner mismatch" means no full match was usable and the first record with the numbers has another normalised holder name |
| DataVerification.MatchBankAccountOwnerIgnoresStatus | src/utils/dataVerification.ts:135-169 | the owner check never reads `status`: records that differ only in status give the same answer |
| DataVerification.FailedLoadFindsNothing | src/db/bankAccountDatabase.ts:21-25 | after a failed load every complete request is "No matching bank account record found" or "Account not found" |
| DataVerification.JaneIsNotJohn | src/utils/dataVerification.ts:159-161 | "Jane Doe" and "John Doe" normalise to different keys |
| DataVerification.JohnDoeVerifies | src/utils/dataVerification.ts:94-127 | the stored active John Doe account verifies for opening with its own fields |
| DataVerification.JaneDoeRequestTrims | src/utils/dataVerification.ts:141-144 | the John Doe request with holder "Jane Doe" trims to the expected four values |
| DataVerification.JaneDoeExample | src/utils/dataVerification.ts:109-168 | with holder "Jane Doe" the opening check still matches on the numbers, while the ownership check reports "Owner mismatch" |
| DataVerification.VerifyEmail | src/utils/dataVerification.ts:32-37 | a falsy e-mail is "Missing email"; a truthy value with no string form throws a TypeError; otherwise the verifier matches exactly when the pattern accepts the value's string form and then echoes the value; a rejected value is "Invalid email format" |
| DataVerification.VerifyPhoneNumber | src/utils/dataVerification.ts:39-44 | a falsy number is "Missing phoneNumber"; a truthy value with no string form throws a TypeError at `String(...)`; otherwise the verifier matches exactly when at least ten digits remain and then echoes the raw value; fewer digits is "Invalid phone number" |
| DataVerification.VerifyPostalAddress | src/utils/dataVerification.ts:46-67 | the verifier matches exactly when all five address fields are truthy, and then echoes exactly those five under `address`; otherwise "Missing address fields" |
| DataVerification.MaskSsn | src/utils/dataVerification.ts:72 | the mask is `***-**-` followed by the last four of the nine digits |
| DataVerification.VerifySSN | src/utils/dataVerification.ts:69-73 | a falsy SSN is "Missing ssn"; a truthy value with no string form throws a TypeError at `String(...)`; otherwise the verifier matches exactly when exactly nine digits remain, echoing only the masked form; other counts are "Invalid SSN" |
| DataVerification.VerifyBusinessEntity | src/utils/dataVerification.ts:75-81 | a falsy EIN or name is "Missing ein or name"; with both truthy, an EIN with no string form throws a TypeError at `String(...)`; otherwise the verifier matches exactly when the EIN has nine digits, echoing both; other counts are "Invalid EIN" |
| DataVerification.Redact | src/utils/dataVerification.ts:174-185 | the account number becomes eight '*' followed by its last (up to) four characters; status defaults to "active"; other fields are copied |
| ConnectedFields.CodeName | src/services/connectedfields.ts:36-40 | the wire string of each `ErrorCode` member |
| ConnectedFields.CodeNamesDistinct | src/services/connectedfields.ts:36-40 | the three error codes go on the wire as three distinct strings |
| ConnectedFields.GenerateErrorResponse | src/services/connectedfields.ts:44-47 | the error body carries the given code and message |
| ConnectedFields.Route | src/services/connectedfields.ts:121-164 | the switch accepts exactly the eight verifiable type names, and each name is served by its own verifier: the bank-account verifier serves both `VerifyBankAccountInput` and `BankAccountOpening`, every other name exactly one verifier of its own, and the owner verifier is not the opening verifier |
| ConnectedFields.Throws | src/services/connectedfields.ts:120-172 | the requests on which the routed verifier throws: a non-string bank field for the two bank verifiers, a truthy field with no string form for the four converting mock verifiers, never for the postal address verifier; a request whose fields are all strings never makes a verifier throw |
| ConnectedFields.Run | src/services/connectedfields.ts:121-151 | each verifier runs the matching verification function on the request data; it throws exactly on the inputs `Throws` names |
| ConnectedFields.FaultMessage | src/services/connectedfields.ts:165-172 | the message of a caught exception is never empty, and it is the exception's own message when that is not empty |
| ConnectedFields.Respond | src/services/connectedfields.ts:120-172 | a verdict is sent with 200 as it is; a thrown exception becomes 500 with `INTERNAL_ERROR` and its message |
| ConnectedFields.BadRequest | src/services/connectedfields.ts:107-118 | a 400 response whose body has code `BAD_REQUEST` and the given message |
| ConnectedFields.Verify | src/services/connectedfields.ts:102-173 | a missing `typeName`, then missing `data`, get 400 with their messages; an unknown type gets 400 "Type: [t] is not verifiable"; a known type is answered with its own verifier's outcome; the status is 200, 400 or 500, and 200 exactly when the body is a verdict (a failed verification is still 200); 500 happens exactly when the routed verifier throws |
| ConnectedFields.IdempotencyKeyIgnored | src/services/connectedfields.ts:103-105 | the idempotency key never changes the response |
| ConnectedFields.BankAccountOpeningAsBankAccountInput | src/services/connectedfields.ts:148-151 | `BankAccountOpening` is answered exactly as `VerifyBankAccountInput` is |
| ConnectedFields.BankAccountTypesUseVerifyBankAccount | src/services/connectedfields.ts:131-151 | both bank-account type names are answered with the outcome of `verifyBankAccount` on the request data |
| ConnectedFields.UnrenderableSsnIsInternalError | src/services/connectedfields.ts:137-172 | an SSN given as an object with no string form is answered with 500 `INTERNAL_ERROR` and the conversion's TypeError message |

## Left out

- Loading `bankAccounts.json` (the start-up function that reads and parses the file, src/db/bankAccountDatabase.ts:17-26) is file I/O. The records are a parameter. A failed load is the empty sequence, and `FailedLoadFindsNothing` states what follows from it.
- `getBankAccounts` is not modelled separately. It returns the loaded list, which is the `records` parameter itself.
- Malformed stored records are not modelled. Records here are typed, with `status` optional. In the source a stored record with a missing or non-string holder or bank name would make `findByFull` throw, but only once its numbers equal the query (the `&&` chain stops at the first false comparison), and the owner verifier would throw at its own `record.accountHolderName.toLowerCase()`; a record with a missing number is simply never matched.
- Unicode case folding is left out: `toLowerCase` is modelled for ASCII letters only, and other characters are kept unchanged.
- The JavaScript engine's exact TypeError text is not modelled. The message for a non-string bank field is written in the form V8 uses; other engines word it differently.
- `typeName` values that are not strings are not modelled. Neither are `data` values that are truthy but not objects (a string, a number, an array).
- Non-string JSON values in the request are kept only as their truthiness and their `String(...)` rendering (absent when the conversion throws). An echoed non-string field is that `Field` value, not the JSON value itself: the serialisation of the 200 body (a number goes back as a JSON number, an object as an object) is not modelled.
- `String(...)` is modelled as succeeding or throwing; what it renders for arrays and objects that do have a string form is taken as given by the `Other` value.
- Redact: `slice(-4)` counts UTF-16 code units, while a Dafny `string` holds Unicode scalar values, so for an account number ending in a character outside the Basic Multilingual Plane the model keeps more of it than the source does.
- `console.log`/`console.error`, `async`/`await`, and the `res.status(...).json(...).send()` chain are not modelled. The handler returns its status and body as a value.
- `getTypeNames`, `getTypeDefinitions` and the Concerto model manager (src/services/connectedfields.ts:49-96) are left out because they serve type discovery, not verification.
- server.js, post-workshop-resources/postWorkshopserver.js and src/constants/paths.ts are not part of this model. They only wire routes and paths.
- `redact` is modelled, but no verifier in the source calls it.
