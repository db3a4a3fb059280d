/** The accounting repository's reader: preference validation, the class
    and bank-account type listings, the active fiscal year, the ledger
    lookup behind "does this account have transactions", and the query the
    account listing sends. A database table is given as the rows a query
    returns, or the driver's failure. */
module AccountingReader {
  import opened Wrappers
  import opened Text
  import opened FieldStrategy
  import opened Condition
  import opened ConditionLemmas
  import opened ClassType

  // ---- errors ----

  /** The repository's error codes, numbered from 1 in declaration order. */
  const EcodeGetAllAccountGroupsFailed: int := 11
  const EcodeGetAllAccountsFailed: int := 16
  const EcodeGetActiveFiscalYearFailed: int := 31
  const EcodeGetGeneralLedgerFailed: int := 41

  /** What the database layer reports: no row for a single-row query, or
      any other driver error with its message. */
  datatype StoreError = ErrNoRows | DriverError(message: string)

  /** The cause a coded error wraps. */
  datatype Cause = Store(storeError: StoreError) | Where(whereError: BuildError)

  /** An error wrapped with one of the repository's codes. A wrapped error
      is a new value: it never compares equal to the bare ErrNoRows. */
  datatype CodedError = CodedError(code: int, cause: Cause)

  /** A table as a query sees it: its rows, or the driver's failure. */
  datatype Table<T> = Table(rows: seq<T>, fault: Option<string>)

  // ---- general-ledger preferences ----

  datatype Preference = Preference(id: int, accountID: Option<int>)

  datatype AccountClass = AccountClass(id: int, name: string, typeID: int, inactive: bool)

  const ZeroAccountClass := AccountClass(0, "", 0, false)

  datatype FieldError = FieldError(field: string, message: string)

  datatype ValidationErrors = ValidationErrors(fieldErrors: seq<FieldError>)

  const AccountNotFound: string := "Account not found"
  const NotBalanceSheetAccount: string := "Account must be one of the balance sheet account"

  /** Whether a preference names an account to look up: a valid, non-zero id. */
  predicate NamesAccount(p: Preference) {
    p.accountID.Some? && p.accountID.value != 0
  }

  /** The errors the validation loop records for one preference. `lookup` is
      the class of the account with a given id as the database reports it;
      `retainedEarnings` and `isBalanceSheetAccount` are the preference id
      and the class-type test the repository package defines elsewhere. */
  function PreferenceErrors(p: Preference, lookup: int -> Result<AccountClass, StoreError>,
                            retainedEarnings: int, isBalanceSheetAccount: int -> bool): (r: seq<FieldError>)
    ensures |r| <= 2 && forall k :: 0 <= k < |r| ==> r[k].field == FormatInt(p.id)
  {
    var field := FormatInt(p.id);
    var outcome := if NamesAccount(p) then lookup(p.accountID.value) else Success(ZeroAccountClass);
    if outcome.Failure? && outcome.error.DriverError? then
      [FieldError(field, outcome.error.message)]
    else
      var accountClass := if outcome.Success? then outcome.value else ZeroAccountClass;
      (if outcome.Failure? then [FieldError(field, AccountNotFound)] else [])
      + (if p.id == retainedEarnings && !isBalanceSheetAccount(accountClass.typeID)
         then [FieldError(field, NotBalanceSheetAccount)] else [])
  }

  /** The per-preference check the loop applies. */
  function PreferenceCheck(lookup: int -> Result<AccountClass, StoreError>,
                           retainedEarnings: int, isBalanceSheetAccount: int -> bool): (check: Preference -> seq<FieldError>)
  {
    p => PreferenceErrors(p, lookup, retainedEarnings, isBalanceSheetAccount)
  }

  /** The errors of a list of preferences, preference by preference. */
  function CollectErrors(ps: seq<Preference>, check: Preference -> seq<FieldError>): (r: seq<FieldError>)
    decreases |ps|
  {
    if ps == [] then [] else CollectErrors(ps[..|ps| - 1], check) + check(ps[|ps| - 1])
  }

  /** ValidatePreferences: nil when no preference has an error, otherwise
      every error of every preference, in input order. */
  method ValidatePreferences(preferences: seq<Preference>, lookup: int -> Result<AccountClass, StoreError>,
                             retainedEarnings: int, isBalanceSheetAccount: int -> bool)
    returns (err: Option<ValidationErrors>)
    ensures var all := CollectErrors(preferences, PreferenceCheck(lookup, retainedEarnings, isBalanceSheetAccount));
            err == if all == [] then None else Some(ValidationErrors(all))
    ensures err.None? <==>
            forall i :: 0 <= i < |preferences| ==>
              PreferenceErrors(preferences[i], lookup, retainedEarnings, isBalanceSheetAccount) == []
  {
    ghost var check := PreferenceCheck(lookup, retainedEarnings, isBalanceSheetAccount);
    var fieldErrors: seq<FieldError> := [];
    for i := 0 to |preferences|
      invariant fieldErrors == CollectErrors(preferences[..i], check)
    {
      assert preferences[..i + 1][..i] == preferences[..i];
      ghost var before := fieldErrors;
      var preference := preferences[i];
      var accountClass := ZeroAccountClass;
      var field := FormatInt(preference.id);
      if preference.accountID.Some? && preference.accountID.value != 0 {
        var outcome := lookup(preference.accountID.value);
        if outcome == Failure(ErrNoRows) {
          fieldErrors := fieldErrors + [FieldError(field, AccountNotFound)];
        } else if outcome.Failure? {
          fieldErrors := fieldErrors + [FieldError(field, outcome.error.message)];
          assert fieldErrors == before + check(preference);
          continue;
        } else {
          accountClass := outcome.value;
        }
      }
      if preference.id == retainedEarnings && !isBalanceSheetAccount(accountClass.typeID) {
        fieldErrors := fieldErrors + [FieldError(field, NotBalanceSheetAccount)];
        assert fieldErrors == before + check(preference);
        continue;
      }
      assert fieldErrors == before + check(preference);
    }
    assert preferences[..|preferences|] == preferences;
    NoErrorsIffEachClean(preferences, check);
    if |fieldErrors| == 0 {
      return None;
    }
    return Some(ValidationErrors(fieldErrors));
  }

  /** Validating two lists one after the other gives their errors in order. */
  lemma {:induction false} CollectErrorsAppend(a: seq<Preference>, b: seq<Preference>, check: Preference -> seq<FieldError>)
    ensures CollectErrors(a + b, check) == CollectErrors(a, check) + CollectErrors(b, check)
    decreases |b|
  {
    if b == [] {
      assert a + b == a;
    } else {
      var b' := b[..|b| - 1];
      assert (a + b)[..|a + b| - 1] == a + b';
      assert (a + b)[|a + b| - 1] == b[|b| - 1];
      CollectErrorsAppend(a, b', check);
    }
  }

  /** The list has no errors exactly when no single preference has one. */
  lemma {:induction false} NoErrorsIffEachClean(ps: seq<Preference>, check: Preference -> seq<FieldError>)
    ensures CollectErrors(ps, check) == [] <==> forall i :: 0 <= i < |ps| ==> check(ps[i]) == []
    decreases |ps|
  {
    if ps != [] {
      var init := ps[..|ps| - 1];
      NoErrorsIffEachClean(init, check);
      assert forall i :: 0 <= i < |init| ==> init[i] == ps[i];
    }
  }

  /** The error names, as its field, the decimal id of a preference of `ps`. */
  predicate NamesOneOf(e: FieldError, ps: seq<Preference>) {
    exists i :: 0 <= i < |ps| && e.field == FormatInt(ps[i].id)
  }

  /** Every recorded error names, as its field, the decimal id of a
      preference of the list, when each check names its own preference. */
  lemma {:induction false} ErrorsNamePreferences(ps: seq<Preference>, check: Preference -> seq<FieldError>)
    requires forall p, e :: e in check(p) ==> e.field == FormatInt(p.id)
    ensures forall e :: e in CollectErrors(ps, check) ==> NamesOneOf(e, ps)
    decreases |ps|
  {
    if ps != [] {
      var init := ps[..|ps| - 1];
      ErrorsNamePreferences(init, check);
      forall e | e in CollectErrors(init, check) + check(ps[|ps| - 1])
        ensures NamesOneOf(e, ps)
      {
        if e in CollectErrors(init, check) {
          assert NamesOneOf(e, init);
          var i :| 0 <= i < |init| && e.field == FormatInt(init[i].id);
          assert init[i] == ps[i];
        } else {
          assert e.field == FormatInt(ps[|ps| - 1].id);
        }
      }
    }
  }

  /** The validation's own check names its preference in every error. */
  lemma CheckNamesPreference(lookup: int -> Result<AccountClass, StoreError>,
                             retainedEarnings: int, isBalanceSheetAccount: int -> bool)
    ensures var check := PreferenceCheck(lookup, retainedEarnings, isBalanceSheetAccount);
            forall p, e :: e in check(p) ==> e.field == FormatInt(p.id)
  {
    var check := PreferenceCheck(lookup, retainedEarnings, isBalanceSheetAccount);
    forall p, e | e in check(p)
      ensures e.field == FormatInt(p.id)
    {
      assert e in PreferenceErrors(p, lookup, retainedEarnings, isBalanceSheetAccount);
    }
  }

  /** A preference with a null or zero account is never looked up: its
      errors are the same whatever the database holds, and there is at
      most the balance-sheet error of the zero class. */
  lemma UnsetAccountNotLookedUp(p: Preference, lookup1: int -> Result<AccountClass, StoreError>,
                                lookup2: int -> Result<AccountClass, StoreError>,
                                retainedEarnings: int, isBalanceSheetAccount: int -> bool)
    requires p.accountID.None? || p.accountID.value == 0
    ensures PreferenceErrors(p, lookup1, retainedEarnings, isBalanceSheetAccount) ==
            PreferenceErrors(p, lookup2, retainedEarnings, isBalanceSheetAccount)
    ensures PreferenceErrors(p, lookup1, retainedEarnings, isBalanceSheetAccount) ==
            if p.id == retainedEarnings && !isBalanceSheetAccount(0)
            then [FieldError(FormatInt(p.id), NotBalanceSheetAccount)] else []
  {
  }

  /** The three lookup outcomes for a preference that names an account: a
      missing account is reported and the balance-sheet check still runs
      on the zero class; any other failure is reported by its message and
      ends the preference's checks; a found class is checked only for the
      retained-earnings preference. */
  lemma LookupOutcomes(p: Preference, lookup: int -> Result<AccountClass, StoreError>,
                       retainedEarnings: int, isBalanceSheetAccount: int -> bool)
    requires NamesAccount(p)
    ensures var errs, field := PreferenceErrors(p, lookup, retainedEarnings, isBalanceSheetAccount), FormatInt(p.id);
            lookup(p.accountID.value) == Failure(ErrNoRows) ==>
              errs == [FieldError(field, AccountNotFound)]
                      + (if p.id == retainedEarnings && !isBalanceSheetAccount(0)
                         then [FieldError(field, NotBalanceSheetAccount)] else [])
    ensures var errs, field := PreferenceErrors(p, lookup, retainedEarnings, isBalanceSheetAccount), FormatInt(p.id);
            lookup(p.accountID.value).Failure? && lookup(p.accountID.value).error.DriverError? ==>
              errs == [FieldError(field, lookup(p.accountID.value).error.message)]
    ensures var errs, field := PreferenceErrors(p, lookup, retainedEarnings, isBalanceSheetAccount), FormatInt(p.id);
            lookup(p.accountID.value).Success? ==>
              (errs == [] <==> p.id != retainedEarnings || isBalanceSheetAccount(lookup(p.accountID.value).value.typeID))
  {
  }

  /** Only the retained-earnings preference gets the balance-sheet check:
      any other preference records at most the lookup's own error. */
  lemma OnlyRetainedEarningsChecked(p: Preference, lookup: int -> Result<AccountClass, StoreError>,
                                    retainedEarnings: int, isBalanceSheetAccount: int -> bool)
    requires p.id != retainedEarnings
    ensures |PreferenceErrors(p, lookup, retainedEarnings, isBalanceSheetAccount)| <= 1
    ensures !NamesAccount(p) || lookup(p.accountID.value).Success? ==>
              PreferenceErrors(p, lookup, retainedEarnings, isBalanceSheetAccount) == []
  {
  }

  /** With the balance-sheet test as the class-type range Asset..Equity, a
      retained-earnings preference whose account is missing gets both
      errors, not-found first. */
  lemma RetainedEarningsAccountMissing(p: Preference, lookup: int -> Result<AccountClass, StoreError>)
    requires NamesAccount(p) && lookup(p.accountID.value) == Failure(ErrNoRows)
    ensures PreferenceErrors(p, lookup, p.id, t => IsBalanceSheetType(t)) ==
            [FieldError(FormatInt(p.id), AccountNotFound), FieldError(FormatInt(p.id), NotBalanceSheetAccount)]
  {
  }

  // ---- class types ----

  /** GetAccountClassTypeByID: the registered type, or the zero value. */
  function GetAccountClassTypeByID(id: int): (r: AccountClassType)
    ensures 1 <= id <= 6 ==> r == ClassTypes[id] && r.id == id
    ensures !(1 <= id <= 6) ==> r == NoClassType
  {
    LookupByID(id);
    ClassTypeByID(ClassTypes, id)
  }

  /** GetAllAccountTypes: the six class types ordered by id, each at index
      id - 1. The map is visited in an unspecified order in the source; each
      entry goes to the slot its key names, so the loop visits ids upwards. */
  method GetAllAccountTypes() returns (result: seq<AccountClassType>)
    ensures |result| == 6
    ensures forall i :: 0 <= i < |result| ==> result[i] == ClassTypes[i + 1] && result[i].id == i + 1
    ensures forall i :: 0 <= i < |result| ==> result[i] == GetAccountClassTypeByID(i + 1)
    ensures forall i :: 0 <= i < |result| ==> (IsBalanceSheetType(result[i].id) <==> i < 3)
  {
    RegistryShape();
    RegistrySize();
    result := seq(|ClassTypes|, _ => NoClassType);
    for id := 1 to |ClassTypes| + 1
      invariant |result| == |ClassTypes|
      invariant forall i :: 0 <= i < id - 1 ==> result[i] == ClassTypes[i + 1]
    {
      assert id in ClassTypes;
      result := result[id - 1 := ClassTypes[id]];
    }
  }

  // ---- bank-account types ----

  const CashAccountType: int := 1
  const ChequingAccountType: int := 2
  const SavingAccountType: int := 3
  const CreditAccountType: int := 4

  datatype BankAccountType = BankAccountType(id: int, name: string)

  /** GetAllBankAccountTypes: cash, chequing and saving, in that order;
      the credit type exists but is not offered. */
  function GetAllBankAccountTypes(): (r: seq<BankAccountType>)
    ensures |r| == 3 && forall i :: 0 <= i < |r| ==> r[i].id == i + 1
    ensures forall i :: 0 <= i < |r| ==> r[i].id != CreditAccountType
    ensures forall i, j :: 0 <= i < j < |r| ==> r[i].name != r[j].name
    ensures r[0].name == "Cash Account" && r[1].name == "Chequing Account" && r[2].name == "Saving Account"
  {
    [BankAccountType(CashAccountType, "Cash Account"),
     BankAccountType(ChequingAccountType, "Chequing Account"),
     BankAccountType(SavingAccountType, "Saving Account")]
  }

  // ---- the active fiscal year ----

  /** Dates are instants, compared as integers. */
  datatype FiscalYear = FiscalYear(id: int, startDate: int, endDate: int, closed: bool)

  /** The ORDER BY id, start_date, end_date ordering: `a` sorts no later than `b`. */
  predicate SortsNoLater(a: FiscalYear, b: FiscalYear) {
    a.id < b.id || (a.id == b.id && (a.startDate < b.startDate || (a.startDate == b.startDate && a.endDate <= b.endDate)))
  }

  /** The first open fiscal year in that ordering, if any is open. */
  function FirstOpen(rows: seq<FiscalYear>): (r: Option<FiscalYear>)
    ensures r.Some? ==> r.value in rows && !r.value.closed
    ensures r.Some? ==> forall k :: 0 <= k < |rows| && !rows[k].closed ==> SortsNoLater(r.value, rows[k])
    ensures r.None? <==> forall k :: 0 <= k < |rows| ==> rows[k].closed
    decreases |rows|
  {
    if rows == [] then None
    else
      var rest := FirstOpen(rows[1..]);
      assert forall k :: 1 <= k < |rows| ==> rows[k] == rows[1..][k - 1];
      if rows[0].closed then rest
      else if rest.Some? && !SortsNoLater(rows[0], rest.value) then rest
      else Some(rows[0])
  }

  /** GetActiveFiscalYear: the open year that sorts first; no open year, or
      a driver failure, is an error under the active-fiscal-year code. */
  function GetActiveFiscalYear(fiscalYears: Table<FiscalYear>): (r: Result<FiscalYear, CodedError>)
    ensures r.Success? ==> fiscalYears.fault.None? && r.value in fiscalYears.rows && !r.value.closed
    ensures r.Success? ==> forall k :: 0 <= k < |fiscalYears.rows| && !fiscalYears.rows[k].closed ==>
                             SortsNoLater(r.value, fiscalYears.rows[k])
    ensures r.Success? ==> forall k :: 0 <= k < |fiscalYears.rows| && !fiscalYears.rows[k].closed ==>
                             r.value.id <= fiscalYears.rows[k].id
    ensures r.Failure? && fiscalYears.fault.Some? ==> r.error.cause == Store(DriverError(fiscalYears.fault.value))
    ensures r.Failure? ==> r.error.code == EcodeGetActiveFiscalYearFailed
    ensures r.Failure? && fiscalYears.fault.None? <==>
            fiscalYears.fault.None? && forall k :: 0 <= k < |fiscalYears.rows| ==> fiscalYears.rows[k].closed
    ensures r.Failure? && fiscalYears.fault.None? ==> r.error.cause == Store(ErrNoRows)
  {
    if fiscalYears.fault.Some? then
      Failure(CodedError(EcodeGetActiveFiscalYearFailed, Store(DriverError(fiscalYears.fault.value))))
    else
      match FirstOpen(fiscalYears.rows)
      case None => Failure(CodedError(EcodeGetActiveFiscalYearFailed, Store(ErrNoRows)))
      case Some(year) => Success(year)
  }

  /** Fiscal years have distinct ids, so the active year is THE open year
      with the smallest id. */
  lemma ActiveFiscalYearIsSmallestOpenID(fiscalYears: Table<FiscalYear>, year: FiscalYear)
    requires fiscalYears.fault.None?
    requires forall i, j :: 0 <= i < j < |fiscalYears.rows| ==> fiscalYears.rows[i].id != fiscalYears.rows[j].id
    requires year in fiscalYears.rows && !year.closed
    requires forall k :: 0 <= k < |fiscalYears.rows| && !fiscalYears.rows[k].closed ==> year.id <= fiscalYears.rows[k].id
    ensures GetActiveFiscalYear(fiscalYears) == Success(year)
  {
    var rows := fiscalYears.rows;
    var r := GetActiveFiscalYear(fiscalYears);
    var a :| 0 <= a < |rows| && rows[a] == year;
    assert r.Success?;
    var b :| 0 <= b < |rows| && rows[b] == r.value;
    assert year.id <= r.value.id && r.value.id <= year.id;
    assert a == b;
  }

  // ---- the general ledger ----

  datatype GeneralLedger = GeneralLedger(id: int, journalID: int, accountID: int, createdBy: int)

  const GeneralLedgerSelect: string := "SELECT id, journal_id, account_id, amount, created_by FROM general_ledgers"

  /** The ledger filter AccountHasTransaction builds: AccountID only. */
  function LedgerStatement(accountID: int): (stmt: Stmt) {
    Struct([Field("AccountID", IntValue(Int64, accountID))])
  }

  lemma ClassifiersOfAccountID()
    ensures IsEqualStatement("AccountID")
  {
    var f := "AccountID";
    NotSuffix(f, "NotEQ", 0);
    NotSuffix(f, "Like", 0);
    NotSuffix(f, "GTE", 0);
    NotSuffix(f, "LTE", 0);
    NotSuffix(f, "NotIN", 0);
    NotSuffix(f, "IN", 1);
    NotSuffix(f, "IsNULL", 0);
  }

  lemma ScopeAccountID(v: Value)
    ensures BuildScope("AccountID", v) == Success(Scope("account_id" + " = ?", v, false))
  {
    ClassifiersOfAccountID();
    ColumnNameAccountID();
    EqualityScope("AccountID", v, "account_id");
  }

  lemma WhereAccountIDEquals()
    ensures "WHERE " + ("account_id" + " = ?") == "WHERE account_id = ?"
  {
  }

  /** The ledger filter is `WHERE account_id = ?` on the id... */
  lemma LedgerWhereSet(accountID: int)
    requires accountID != 0
    ensures WhereClause(Struct([Field("AccountID", IntValue(Int64, accountID))])) ==
            Built("WHERE account_id = ?", [IntValue(Int64, accountID)], None)
  {
    var v := IntValue(Int64, accountID);
    ScopeAccountID(v);
    SingleField("AccountID", v, Scope("account_id" + " = ?", v, false));
    WhereAccountIDEquals();
  }

  /** ... or nothing for the zero id; so it never fails. */
  lemma LedgerWhere(accountID: int)
    ensures accountID != 0 ==>
              WhereClause(LedgerStatement(accountID)) == Built("WHERE account_id = ?", [IntValue(Int64, accountID)], None)
    ensures accountID == 0 ==> WhereClause(LedgerStatement(accountID)) == Built("", [], None)
  {
    if accountID != 0 {
      LedgerWhereSet(accountID);
    } else {
      AllZeroGivesEmpty([Field("AccountID", IntValue(Int64, 0))]);
    }
  }

  /** The ledger rows of one account, in table order. */
  function RowsOfAccount(rows: seq<GeneralLedger>, accountID: int): (r: seq<GeneralLedger>)
    ensures forall k :: 0 <= k < |r| ==> r[k].accountID == accountID && r[k] in rows
    ensures r == [] <==> forall k :: 0 <= k < |rows| ==> rows[k].accountID != accountID
    decreases |rows|
  {
    if rows == [] then []
    else
      assert forall k :: 1 <= k < |rows| ==> rows[k] == rows[1..][k - 1];
      (if rows[0].accountID == accountID then [rows[0]] else []) + RowsOfAccount(rows[1..], accountID)
  }

  /** What `SELECT ... FROM general_ledgers <where>` returns: the rows of
      the account the placeholder binds, or every row with no filter. */
  function SelectLedger(rows: seq<GeneralLedger>, where: Built): (r: seq<GeneralLedger>)
    ensures forall k :: 0 <= k < |r| ==> r[k] in rows
  {
    if where.query == "" || |where.args| == 0 || !where.args[0].IntValue? then rows
    else RowsOfAccount(rows, where.args[0].n)
  }

  /** GetGeneralLedger for the AccountID filter: the first matching row;
      a driver failure or no row is an error under the general-ledger code.
      The filter always builds (LedgerWhere), so the source's builder-error
      branch cannot be taken here and is not written out. */
  function GetGeneralLedger(ledger: Table<GeneralLedger>, accountID: int): (r: Result<GeneralLedger, CodedError>)
    ensures r.Failure? ==> r.error.code == EcodeGetGeneralLedgerFailed
    ensures r.Success? ==> ledger.fault.None? && r.value in ledger.rows
    ensures r.Success? && accountID != 0 ==> r.value.accountID == accountID
    ensures r.Failure? && ledger.fault.Some? ==> r.error.cause == Store(DriverError(ledger.fault.value))
    ensures r.Failure? && ledger.fault.None? ==> r.error.cause == Store(ErrNoRows)
    ensures accountID != 0 ==>
              (r.Failure? <==> ledger.fault.Some? || forall k :: 0 <= k < |ledger.rows| ==> ledger.rows[k].accountID != accountID)
    ensures accountID == 0 ==> (r.Failure? <==> ledger.fault.Some? || ledger.rows == [])
    ensures accountID == 0 && r.Success? ==> r.value == ledger.rows[0]
  {
    LedgerWhere(accountID);
    var where := WhereClause(LedgerStatement(accountID));
    if ledger.fault.Some? then Failure(CodedError(EcodeGetGeneralLedgerFailed, Store(DriverError(ledger.fault.value))))
    else
      var selected := SelectLedger(ledger.rows, where);
      if selected == [] then Failure(CodedError(EcodeGetGeneralLedgerFailed, Store(ErrNoRows)))
      else Success(selected[0])
  }

  /** AccountHasTransaction as written: the no-rows exemption compares the
      wrapped error with the bare ErrNoRows, so it never applies, and every
      failure of the lookup is returned with `false`. */
  function AccountHasTransaction(ledger: Table<GeneralLedger>, id: int): (r: (bool, Option<CodedError>))
    ensures r.1.Some? <==> GetGeneralLedger(ledger, id).Failure?
    ensures r.1.Some? ==> !r.0 && r.1.value.code == EcodeGetGeneralLedgerFailed
    ensures id != 0 ==> (r.0 <==> ledger.fault.None? && exists k :: 0 <= k < |ledger.rows| && ledger.rows[k].accountID == id)
    ensures id == 0 ==> (r.0 <==> ledger.fault.None? && ledger.rows != [] && ledger.rows[0].accountID == 0)
  {
    var gl := GetGeneralLedger(ledger, id);
    if gl.Failure? then (false, Some(gl.error))
    else (gl.value.accountID == id, None)
  }

  /** An account with no ledger rows is reported as a lookup failure, not
      as an account without transactions. */
  lemma NoLedgerRowsIsAnError(ledger: Table<GeneralLedger>, id: int)
    requires id != 0 && ledger.fault.None?
    requires forall k :: 0 <= k < |ledger.rows| ==> ledger.rows[k].accountID != id
    ensures AccountHasTransaction(ledger, id) == (false, Some(CodedError(EcodeGetGeneralLedgerFailed, Store(ErrNoRows))))
  {
  }

  /** The zero id is a zero field, so the ledger query goes out without a
      filter and the answer comes from the table's first row: account 0 is
      said to have no transaction although its row is the second. */
  lemma AccountZeroReadsFirstRow()
    ensures AccountHasTransaction(Table([GeneralLedger(1, 1, 5, 1), GeneralLedger(2, 1, 0, 1)], None), 0) == (false, None)
  {
  }

  /** The same check with the exemption the comparison was meant to give:
      a lookup that found no row means no transaction. */
  function AccountHasTransactionCorrected(ledger: Table<GeneralLedger>, id: int): (r: (bool, Option<CodedError>))
    ensures r.1.Some? <==> ledger.fault.Some?
    ensures r.1.Some? ==> !r.0 && r.1.value == CodedError(EcodeGetGeneralLedgerFailed, Store(DriverError(ledger.fault.value)))
    ensures id != 0 ==> (r.0 <==> ledger.fault.None? && exists k :: 0 <= k < |ledger.rows| && ledger.rows[k].accountID == id)
    ensures id == 0 ==> (r.0 <==> ledger.fault.None? && ledger.rows != [] && ledger.rows[0].accountID == 0)
  {
    var gl := GetGeneralLedger(ledger, id);
    if gl.Failure? && gl.error.cause != Store(ErrNoRows) then (false, Some(gl.error))
    else if gl.Failure? then (false, None)
    else (gl.value.accountID == id, None)
  }

  /** The corrected check answers every fault-free lookup without error,
      and agrees with the original whenever the account has a row. */
  lemma CorrectedAgreesWhenFound(ledger: Table<GeneralLedger>, id: int)
    ensures ledger.fault.None? ==> AccountHasTransactionCorrected(ledger, id).1.None?
    ensures AccountHasTransaction(ledger, id).0 ==>
              AccountHasTransactionCorrected(ledger, id) == AccountHasTransaction(ledger, id)
  {
  }

  // ---- the account listing ----

  datatype Account = Account(id: int, name: string, groupID: int, inactive: bool)

  const AccountsColumns: string := "accounts.id, " + "accounts.name, " + "accounts.group_id, " + "accounts.inactive"
  const AccountsSelect: string := "SELECT " + AccountsColumns + " FROM accounts"
  const ClassTables: string := ", account_groups, account_classes"
  const ClassJoin: string := " WHERE accounts.group_id = " + "account_groups.id" + " AND account_groups.class_id = " + "account_classes.id"
  /** The class-type test; the source appends it with a trailing " AND". */
  const ClassTypeTest: string := " AND account_classes.type_id = ?"

  /** The listing's query up to and including the class-type test. */
  function ClassHead(): (head: string) {
    AccountsSelect + ClassTables + ClassJoin + ClassTypeTest
  }

  /** The query and arguments the listing sends as the source assembles
      them: without a class type, the select and the where clause; with one,
      the joins and the class-type test, then " AND " and the where clause
      when there is one, and the class type AFTER the where arguments. */
  function AccountsQuery(whereClause: string, whereArgs: seq<Value>, classType: int): (r: (string, seq<Value>))
    ensures |r.1| == |whereArgs| + (if classType > 0 then 1 else 0) && r.1[..|whereArgs|] == whereArgs
    ensures classType > 0 ==> r.1[|whereArgs|] == IntValue(Int64, classType)
  {
    if classType <= 0 then (AccountsSelect + " " + whereClause, whereArgs)
    else (if whereClause == "" then ClassHead() else ClassHead() + " AND " + whereClause,
          whereArgs + [IntValue(Int64, classType)])
  }

  lemma SelectEndsWithTable()
    ensures !HasSuffix(AccountsSelect, "AND")
  {
    NotSuffix(AccountsSelect, "AND", 2);
  }

  /** Appending the test with its trailing " AND" leaves text that ends in
      "AND", and cutting four characters gives back the bare test. */
  lemma TrailingAnd(head: string)
    ensures HasSuffix(head + ClassTypeTest + " AND", "AND")
    ensures (head + ClassTypeTest + " AND")[..|head + ClassTypeTest + " AND"| - 4] == head + ClassTypeTest
    ensures head + ClassTypeTest + " AND" + " " == head + ClassTypeTest + " AND "
  {
    var s := head + ClassTypeTest + " AND";
    assert s[|s| - 3..] == "AND";
    assert s[..|s| - 4] == head + ClassTypeTest;
  }

  /** The string surgery of GetAllAccounts: the source builds the query by
      appending, then either cuts a dangling "AND" or appends the where
      clause. */
  method BuildAccountsQuery(whereClause: string, whereClauseArgs: seq<Value>, classType: int)
    returns (query: string, args: seq<Value>)
    ensures (query, args) == AccountsQuery(whereClause, whereClauseArgs, classType)
  {
    args := whereClauseArgs;
    query := AccountsSelect;
    if classType > 0 {
      query := query + ClassTables;
      query := query + ClassJoin;
      query := query + (ClassTypeTest + " AND");
      args := args + [IntValue(Int64, classType)];
      TrailingAnd(AccountsSelect + ClassTables + ClassJoin);
      assert query == AccountsSelect + ClassTables + ClassJoin + ClassTypeTest + " AND";
    } else {
      SelectEndsWithTable();
    }
    if HasSuffix(query, "AND") && whereClause == "" {
      query := query[..|query| - 4];
    } else {
      query := query + " " + whereClause;
    }
  }

  /** GetAllAccounts: the where clause of the filter, the query assembled
      around it, and the database's answer to that query. `db` is the
      database: the rows it returns for a query and its arguments. A
      failing filter is reported under the accounts code; a failing select
      under the account-groups code. */
  method GetAllAccounts(stmt: Stmt, classType: int, db: (string, seq<Value>) -> Result<seq<Account>, StoreError>)
    returns (result: seq<Account>, err: Option<CodedError>)
    requires WellFormed(stmt)
    ensures var where := WhereClause(stmt);
            where.err.Some? ==> result == [] && err == Some(CodedError(EcodeGetAllAccountsFailed, Where(where.err.value)))
    ensures var where := WhereClause(stmt);
            var sent := AccountsQuery(where.query, where.args, classType);
            where.err.None? && db(sent.0, sent.1).Success? ==> result == db(sent.0, sent.1).value && err.None?
    ensures var where := WhereClause(stmt);
            var sent := AccountsQuery(where.query, where.args, classType);
            where.err.None? && db(sent.0, sent.1).Failure? ==>
              result == [] && err == Some(CodedError(EcodeGetAllAccountGroupsFailed, Store(db(sent.0, sent.1).error)))
  {
    var whereClause, whereClauseArgs, e := NewWhereClause(stmt);
    if e.Some? {
      return [], Some(CodedError(EcodeGetAllAccountsFailed, Where(e.value)));
    }
    var query, args := BuildAccountsQuery(whereClause, whereClauseArgs, classType);
    var answer := db(query, args);
    if answer.Failure? {
      return [], Some(CodedError(EcodeGetAllAccountGroupsFailed, Store(answer.error)));
    }
    return answer.value, None;
  }

  // ---- what the listing's query binds ----

  /** A where clause that is not empty begins with the WHERE keyword. */
  lemma WhereClauseKeyword(stmt: Stmt)
    requires WhereClause(stmt).err.None? && WhereClause(stmt).query != ""
    ensures |WhereClause(stmt).query| >= 6 && WhereClause(stmt).query[..6] == "WHERE "
  {
  }

  lemma NoPlaceholderAppend(a: string, b: string)
    requires NoPlaceholder(a) && NoPlaceholder(b)
    ensures NoPlaceholder(a + b)
  {
    assert forall i :: |a| <= i < |a + b| ==> (a + b)[i] == b[i - |a|];
  }

  lemma SelectNoPlaceholder()
    ensures NoPlaceholder(AccountsSelect)
  {
    var a, b, c, d := "accounts.id, ", "accounts.name, ", "accounts.group_id, ", "accounts.inactive";
    assert NoPlaceholder(a) && NoPlaceholder(b) && NoPlaceholder(c) && NoPlaceholder(d);
    NoPlaceholderAppend(a, b);
    NoPlaceholderAppend(a + b, c);
    NoPlaceholderAppend(a + b + c, d);
    assert NoPlaceholder("SELECT ") && NoPlaceholder(" FROM accounts");
    NoPlaceholderAppend("SELECT ", AccountsColumns);
    NoPlaceholderAppend("SELECT " + AccountsColumns, " FROM accounts");
  }

  lemma JoinNoPlaceholder()
    ensures NoPlaceholder(ClassJoin)
  {
    var a, b, c, d := " WHERE accounts.group_id = ", "account_groups.id", " AND account_groups.class_id = ", "account_classes.id";
    assert NoPlaceholder(a) && NoPlaceholder(b) && NoPlaceholder(c) && NoPlaceholder(d);
    NoPlaceholderAppend(a, b);
    NoPlaceholderAppend(a + b, c);
    NoPlaceholderAppend(a + b + c, d);
  }

  /** The head of the listing's query holds one placeholder, its last
      character: the class type's. */
  lemma HeadPlaceholder()
    ensures Count('?', ClassHead()) == 1
    ensures ClassHead()[|ClassHead()| - 1] == '?'
  {
    var test := " AND account_classes.type_id = ";
    var pre := AccountsSelect + ClassTables + ClassJoin + test;
    assert ClassHead() == pre + "?";
    SelectNoPlaceholder();
    JoinNoPlaceholder();
    assert NoPlaceholder(ClassTables) && NoPlaceholder(test);
    NoPlaceholderAppend(AccountsSelect, ClassTables);
    NoPlaceholderAppend(AccountsSelect + ClassTables, ClassJoin);
    NoPlaceholderAppend(AccountsSelect + ClassTables + ClassJoin, test);
    CountLast(pre);
  }

  /** The text after the WHERE keyword: the conditions alone. */
  function Conditions(whereClause: string): (r: string) {
    if |whereClause| >= 6 && whereClause[..6] == "WHERE " then whereClause[6..] else whereClause
  }

  /** As written, a class type together with a filter puts a second WHERE
      right after the class-type test's AND, and the arguments list the
      filter's values first although the class-type placeholder, the head's
      only one, comes first in the text. */
  lemma AsWrittenMisplacesFilter(stmt: Stmt, classType: int)
    requires classType > 0 && WhereClause(stmt).err.None? && WhereClause(stmt).query != ""
    ensures var where := WhereClause(stmt);
            var sent := AccountsQuery(where.query, where.args, classType);
            sent.0 == ClassHead() + " AND WHERE " + Conditions(where.query)
            && sent.1 == where.args + [IntValue(Int64, classType)]
            && (|where.args| > 0 ==> sent.1[0] == where.args[0])
  {
    var where := WhereClause(stmt);
    assert where.query == "WHERE " + Conditions(where.query);
    var sent := AccountsQuery(where.query, where.args, classType);
    assert sent.0 == ClassHead() + " AND " + where.query;
  }

  lemma ClassifiersOfID()
    ensures IsEqualStatement("ID")
  {
    NotSuffix("ID", "IN", 1);
  }

  lemma WhereIDEquals()
    ensures "WHERE " + ("id" + " = ?") == "WHERE id = ?"
  {
  }

  lemma AccountFilterByID(id: int)
    requires id != 0
    ensures WhereClause(Struct([Field("ID", IntValue(Int64, id))])) == Built("WHERE id = ?", [IntValue(Int64, id)], None)
  {
    var v := IntValue(Int64, id);
    ClassifiersOfID();
    ColumnNameID();
    EqualityScope("ID", v, "id");
    SingleField("ID", v, Scope("id" + " = ?", v, false));
    WhereIDEquals();
  }

  /** Accounts of account 7 of class type 2: the query reads
      "... type_id = ? AND WHERE id = ?" and binds type_id to 7 and id to 2. */
  lemma ClassTypeWithIDFilter()
    ensures WhereClause(Struct([Field("ID", IntValue(Int64, 7))])) == Built("WHERE id = ?", [IntValue(Int64, 7)], None)
    ensures AccountsQuery("WHERE id = ?", [IntValue(Int64, 7)], 2) ==
              (ClassHead() + " AND WHERE id = ?", [IntValue(Int64, 7), IntValue(Int64, 2)])
  {
    AccountFilterByID(7);
    AndWhereID(ClassHead());
    var w := "WHERE id = ?";
    assert w != "";
    assert AccountsQuery(w, [IntValue(Int64, 7)], 2).1 == [IntValue(Int64, 7), IntValue(Int64, 2)];
    assert AccountsQuery(w, [IntValue(Int64, 7)], 2).0 == ClassHead() + " AND " + w;
  }

  lemma AndWhereID(head: string)
    ensures head + " AND " + "WHERE id = ?" == head + " AND WHERE id = ?"
  {
    assert " AND " + "WHERE id = ?" == " AND WHERE id = ?";
  }

  /** The listing as evidently meant: the filter's conditions joined to the
      class-type test with AND, and the class type bound first. */
  function AccountsQueryCorrected(whereClause: string, whereArgs: seq<Value>, classType: int): (r: (string, seq<Value>)) {
    if classType <= 0 then (AccountsSelect + " " + whereClause, whereArgs)
    else (if whereClause == "" then ClassHead() else ClassHead() + " AND " + Conditions(whereClause),
          [IntValue(Int64, classType)] + whereArgs)
  }

  /** The corrected query starts with the head, whose only placeholder is
      bound to the class type; the rest of the text holds one placeholder
      per filter argument, which follow in order; and a filter adds its
      conditions after AND without a second WHERE keyword. */
  lemma CorrectedBindsInOrder(whereClause: string, whereArgs: seq<Value>, classType: int)
    requires classType > 0 && Count('?', whereClause) == |whereArgs|
    requires whereClause == "" || (|whereClause| >= 6 && whereClause[..6] == "WHERE ")
    ensures var sent := AccountsQueryCorrected(whereClause, whereArgs, classType);
            && |ClassHead()| <= |sent.0| && sent.0[..|ClassHead()|] == ClassHead()
            && sent.1 == [IntValue(Int64, classType)] + whereArgs
            && Count('?', sent.0[|ClassHead()|..]) == |whereArgs|
            && Count('?', sent.0) == |sent.1|
            && (whereClause != "" ==> sent.0 == ClassHead() + " AND " + Conditions(whereClause)
                                      && whereClause == "WHERE " + Conditions(whereClause))
  {
    var sent := AccountsQueryCorrected(whereClause, whereArgs, classType);
    var tail := if whereClause == "" then "" else " AND " + Conditions(whereClause);
    assert sent.0 == ClassHead() + tail;
    HeadPlaceholder();
    CorrectedTailCount(whereClause, |whereArgs|);
    SplitAfterHead(ClassHead(), tail);
  }

  /** The text after the head holds the filter's placeholders, and a filter
      is its WHERE keyword followed by its conditions. */
  lemma CorrectedTailCount(whereClause: string, n: nat)
    requires Count('?', whereClause) == n
    requires whereClause == "" || (|whereClause| >= 6 && whereClause[..6] == "WHERE ")
    ensures Count('?', if whereClause == "" then "" else " AND " + Conditions(whereClause)) == n
    ensures whereClause != "" ==> whereClause == "WHERE " + Conditions(whereClause)
  {
    if whereClause != "" {
      var conditions := Conditions(whereClause);
      assert whereClause == "WHERE " + conditions;
      CountAbsent('?', "WHERE ");
      CountAbsent('?', " AND ");
      CountAppend('?', "WHERE ", conditions);
      CountAppend('?', " AND ", conditions);
    }
  }

  /** A text made of a head and a tail splits back into them, and its
      placeholders are theirs together. */
  lemma SplitAfterHead(head: string, tail: string)
    ensures |head| <= |head + tail| && (head + tail)[..|head|] == head && (head + tail)[|head|..] == tail
    ensures Count('?', head + tail) == Count('?', head) + Count('?', tail)
  {
    CountAppend('?', head, tail);
  }

  /** Every filter the builder accepts meets the corrected listing's needs:
      its where clause has a placeholder per argument and starts with WHERE. */
  lemma CorrectedListingBindsInOrder(stmt: Stmt, classType: int)
    requires WellFormed(stmt) && classType > 0 && WhereClause(stmt).err.None?
    ensures Count('?', WhereClause(stmt).query) == |WhereClause(stmt).args|
    ensures WhereClause(stmt).query == "" || (|WhereClause(stmt).query| >= 6 && WhereClause(stmt).query[..6] == "WHERE ")
  {
    PlaceholdersMatchArgs(stmt);
    if WhereClause(stmt).query != "" {
      WhereClauseKeyword(stmt);
    }
  }
}
