/**
 * The record store: the bank-account records loaded once at start-up and the two
 * first-match lookups over them. The collection is passed in explicitly; a failed load
 * leaves it empty.
 */
module BankAccountDatabase {
  import opened Wrappers
  import opened JsStrings

  /** One known bank account. `status` is absent (None) on records that do not carry one. */
  datatype BankAccountRecord = BankAccountRecord(
    id: string,
    routingNumber: string,
    accountNumber: string,
    accountHolderName: string,
    bankName: string,
    status: Option<string>)

  /** Index of the first element satisfying p, as `Array.prototype.find` scans. */
  function FirstIndex<T>(s: seq<T>, p: T -> bool): (r: Option<nat>)
    ensures r.Some? ==> r.value < |s| && p(s[r.value])
    ensures r.Some? ==> forall j :: 0 <= j < r.value ==> !p(s[j])
    ensures r.None? <==> forall j :: 0 <= j < |s| ==> !p(s[j])
  {
    if |s| == 0 then None
    else if p(s[0]) then Some(0)
    else match FirstIndex(s[1..], p)
      case None => None
      case Some(k) => Some(k + 1)
  }

  /** `Array.prototype.find`: the first element satisfying p, or undefined. */
  function Find<T>(s: seq<T>, p: T -> bool): (r: Option<T>)
    ensures r.None? <==> forall j :: 0 <= j < |s| ==> !p(s[j])
  {
    match FirstIndex(s, p)
    case None => None
    case Some(i) => Some(s[i])
  }

  /** Find returns s[i] exactly when i is the first index whose element satisfies p. */
  lemma FindIsFirst<T>(s: seq<T>, p: T -> bool, i: nat)
    requires i < |s| && p(s[i])
    requires forall j :: 0 <= j < i ==> !p(s[j])
    ensures Find(s, p) == Some(s[i])
  {
    assert FirstIndex(s, p) == Some(i);
  }

  /** The `findByAccount` predicate: both numbers equal the query exactly. */
  predicate AccountMatches(rec: BankAccountRecord, routingNumber: string, accountNumber: string) {
    rec.routingNumber == routingNumber && rec.accountNumber == accountNumber
  }

  /**
   * The `findByFull` predicate: both numbers equal exactly, holder name and bank name equal
   * after `toLowerCase().trim()` on both sides.
   */
  predicate FullMatches(rec: BankAccountRecord, routingNumber: string, accountNumber: string,
                        accountHolderName: string, bankName: string): (r: bool)
    ensures r ==> AccountMatches(rec, routingNumber, accountNumber)
  {
    && AccountMatches(rec, routingNumber, accountNumber)
    && Normalize(rec.accountHolderName) == Normalize(accountHolderName)
    && Normalize(rec.bankName) == Normalize(bankName)
  }

  /** `findByAccount(routingNumber, accountNumber)` */
  function FindByAccount(records: seq<BankAccountRecord>, routingNumber: string, accountNumber: string)
    : (r: Option<BankAccountRecord>)
    ensures r.Some? ==> r.value in records
    ensures r.Some? ==> r.value.routingNumber == routingNumber && r.value.accountNumber == accountNumber
    ensures r.None? <==> forall i :: 0 <= i < |records| ==> !AccountMatches(records[i], routingNumber, accountNumber)
  {
    Find(records, rec => AccountMatches(rec, routingNumber, accountNumber))
  }

  /** `findByFull(routingNumber, accountNumber, accountHolderName, bankName)` */
  function FindByFull(records: seq<BankAccountRecord>, routingNumber: string, accountNumber: string,
                      accountHolderName: string, bankName: string)
    : (r: Option<BankAccountRecord>)
    ensures r.Some? ==> r.value in records
    ensures r.Some? ==> FullMatches(r.value, routingNumber, accountNumber, accountHolderName, bankName)
    ensures r.None? <==>
      forall i :: 0 <= i < |records| ==> !FullMatches(records[i], routingNumber, accountNumber, accountHolderName, bankName)
  {
    Find(records, rec => FullMatches(rec, routingNumber, accountNumber, accountHolderName, bankName))
  }

  /**
   * Two scans that ask the same question of corresponding elements stop at the same index.
   * Used to show that a lookup ignores whatever its predicate does not read.
   */
  lemma {:induction false} FirstIndexCongruent<T, U>(s: seq<T>, p: T -> bool, t: seq<U>, q: U -> bool)
    requires |s| == |t|
    requires forall j :: 0 <= j < |s| ==> p(s[j]) == q(t[j])
    ensures FirstIndex(s, p) == FirstIndex(t, q)
    decreases |s|
  {
    if |s| > 0 && !p(s[0]) {
      FirstIndexCongruent(s[1..], p, t[1..], q);
    }
  }

  /** `findByAccount` returns the record at the first index whose numbers both equal the query. */
  lemma FindByAccountIsFirst(records: seq<BankAccountRecord>, routingNumber: string, accountNumber: string, i: nat)
    requires i < |records| && AccountMatches(records[i], routingNumber, accountNumber)
    requires forall j :: 0 <= j < i ==> !AccountMatches(records[j], routingNumber, accountNumber)
    ensures FindByAccount(records, routingNumber, accountNumber) == Some(records[i])
  {
    FindIsFirst(records, rec => AccountMatches(rec, routingNumber, accountNumber), i);
  }

  /** `findByFull` returns the record at the first index that matches all four fields. */
  lemma FindByFullIsFirst(records: seq<BankAccountRecord>, routingNumber: string, accountNumber: string,
                          accountHolderName: string, bankName: string, i: nat)
    requires i < |records| && FullMatches(records[i], routingNumber, accountNumber, accountHolderName, bankName)
    requires forall j :: 0 <= j < i ==> !FullMatches(records[j], routingNumber, accountNumber, accountHolderName, bankName)
    ensures FindByFull(records, routingNumber, accountNumber, accountHolderName, bankName) == Some(records[i])
  {
    FindIsFirst(records, rec => FullMatches(rec, routingNumber, accountNumber, accountHolderName, bankName), i);
  }

  /**
   * A full match is in particular a number match, so whenever `findByFull` finds a record,
   * `findByAccount` on the same numbers finds one too, at the same index or an earlier one.
   */
  lemma FullMatchImpliesAccountMatch(records: seq<BankAccountRecord>, routingNumber: string, accountNumber: string,
                                     accountHolderName: string, bankName: string)
    ensures FindByFull(records, routingNumber, accountNumber, accountHolderName, bankName).Some? ==>
      FindByAccount(records, routingNumber, accountNumber).Some?
    ensures
      var full := FirstIndex(records, rec => FullMatches(rec, routingNumber, accountNumber, accountHolderName, bankName));
      var loose := FirstIndex(records, rec => AccountMatches(rec, routingNumber, accountNumber));
      full.Some? ==> loose.Some? && loose.value <= full.value
  {
    var full := FirstIndex(records, rec => FullMatches(rec, routingNumber, accountNumber, accountHolderName, bankName));
    if full.Some? {
      assert AccountMatches(records[full.value], routingNumber, accountNumber);
    }
  }

  /**
   * Holder and bank names are compared without regard to ASCII case or surrounding
   * whitespace: queries with the same normalised names find the same record.
   */
  lemma FindByFullNormalizesNames(records: seq<BankAccountRecord>, routingNumber: string, accountNumber: string,
                                  holder1: string, bank1: string, holder2: string, bank2: string)
    requires Normalize(holder1) == Normalize(holder2) && Normalize(bank1) == Normalize(bank2)
    ensures FindByFull(records, routingNumber, accountNumber, holder1, bank1)
         == FindByFull(records, routingNumber, accountNumber, holder2, bank2)
  {
    FirstIndexCongruent(records, rec => FullMatches(rec, routingNumber, accountNumber, holder1, bank1),
                        records, rec => FullMatches(rec, routingNumber, accountNumber, holder2, bank2));
  }

  /** The query " john doe " (padded, lower case) finds the stored "John Doe" once the numbers match. */
  lemma FindByFullExample()
    ensures
      var john := BankAccountRecord("1", "111000025", "1234567890", "John Doe", "Bank of America", Some("active"));
      FindByFull([john], "111000025", "1234567890", " " + "john doe" + " ", "Bank of America") == Some(john)
  {
    var john := BankAccountRecord("1", "111000025", "1234567890", "John Doe", "Bank of America", Some("active"));
    assert ToLower("john doe") == ToLower("John Doe");
    NormalizeIgnoresCaseAndPadding("john doe", "John Doe", " ", " ");
    FindByFullIsFirst([john], "111000025", "1234567890", " " + "john doe" + " ", "Bank of America", 0);
  }
}
