# A Dafny model of the monosvc SQL query builder and accounting reader

This project models part of a Go service monorepo. It covers the shared SQL
helpers and the read side of its accounting module:

- **The WHERE-clause builder** (`stdlibgo/querybuilder/sql`). A filter struct
  becomes a WHERE clause. Each non-zero field is one predicate, chosen by the
  suffix of the field's name: `Like`, `GTE`, `LTE`, `NotIN`, `IN`, `IsNULL`,
  or none for equality. Predicates are joined with `AND`, and the
  placeholder arguments are collected in field order.
- **The paging value**: its normalisation, its `LIMIT ? OFFSET ?` clause and
  its last page.
- **The database wrapper's `Delete` and `Updates`** (`stdlibgo/sql/db.go`).
  Each builds one statement around the WHERE clause.
- **The accounting repository's reader** (`module/accounting/repository/sql`):
  - the validation of general-ledger preferences
  - the fixed class-type and bank-account-type registries
  - the active fiscal year
  - the general-ledger lookup behind `AccountHasTransaction`
  - the accounts listing, which adds a class-type join onto the filter's
    WHERE clause
- **The use-case reader's class-type getters**.
- **The configuration loader's option check**.

The builder is proved against a specification function. `WhereClause(stmt)`
is the fold `ScanFields` over the fields, plus the final `WHERE` and trim.
The method `Condition.BuildQuery` walks the fields with a loop, as the Go code
does, and its postcondition is equality with that function. The lemmas then
state what the clause means:

- Zero fields are dropped.
- The first rejected field aborts the build.
- Each suffix selects exactly one template.
- On success there are exactly as many `?` placeholders as arguments.
- The twelve rows of the builder's test table and the thirteen column-name
  vectors hold.

`Delete`, `Updates` and `GetAllAccounts` are methods proved against functions
that describe the statement they send. The placeholder/argument balance is
carried through to the UPDATE and DELETE statements. The preference
validation loop, with its `continue`s, is proved against a fold of a
per-preference check. The registries' loops fill the slot `id - 1` for every
id, and are proved against the registry map.

The model keeps these behaviours of the Go code as written:

- A `NotEQ` field builds an equality (`FooNotEQ` gives `foo = ?`).
- `GTE` rejects a time value that `LTE` accepts.
- The comparison type switches do not list `int16` and `uint16`.
- When a field is rejected, the builder returns the text it had gathered
  without the `WHERE` keyword.
- A filter with only zero fields makes `Delete` remove every row.
- `Updates` with no values to set produces `UPDATE t  WHERE ...`. The error
  its iteration reports is overwritten by the builder's result.
- `GetAllAccounts` reports a failing select under the account-groups error
  code.
- `AccountHasTransaction` for account id 0 builds an empty filter, because
  the zero id is a zero field. Its ledger query then has no WHERE clause, and
  the answer depends only on the table's first row.

## Model

| member | source | states |
|---|---|---|
| FieldStrategy.AtMostOneOperator | stdlibgo/querybuilder/sql/fieldstrategy.go:41-67 | no field name satisfies more than one of the seven operator classifiers |
| FieldStrategy.IsEqualStatement | stdlibgo/querybuilder/sql/fieldstrategy.go:31-39 | a name is an equality statement when none of the seven operator classifiers holds of it; `EqualIffNoOperator` and `AtMostOneOperator` state the partition |
| FieldStrategy.IsNotEqualStatement | stdlibgo/querybuilder/sql/fieldstrategy.go:41-43 | a name is a `NotEQ` statement when it ends in `NotEQ`; `ClassifierMatrix` checks the test names |
| FieldStrategy.IsLikeStatement | stdlibgo/querybuilder/sql/fieldstrategy.go:45-47 | a name is a `Like` statement when it ends in `Like`; `AtMostOneOperator` shows it excludes every other operator |
| FieldStrategy.IsGreaterThanEqualStatement | stdlibgo/querybuilder/sql/fieldstrategy.go:49-51 | a name is a `GTE` statement when it ends in `GTE`; `AtMostOneOperator` shows it excludes every other operator |
| FieldStrategy.IsLessThanEqualStatement | stdlibgo/querybuilder/sql/fieldstrategy.go:53-55 | a name is an `LTE` statement when it ends in `LTE`; `AtMostOneOperator` shows it excludes every other operator |
| FieldStrategy.IsInStatement | stdlibgo/querybuilder/sql/fieldstrategy.go:57-59 | a name is an `IN` statement when it ends in `IN` and is not a `NotIN` statement; `InExcludesNotIn` states both directions |
| FieldStrategy.IsNotInStatement | stdlibgo/querybuilder/sql/fieldstrategy.go:61-63 | a name is a `NotIN` statement when it ends in `NotIN`; `InExcludesNotIn` shows it is never an `IN` statement |
| FieldStrategy.IsNull | stdlibgo/querybuilder/sql/fieldstrategy.go:65-67 | a name is an `IsNULL` statement when it ends in `IsNULL`; `AtMostOneOperator` shows it excludes every other operator |
| FieldStrategy.ColumnName | stdlibgo/querybuilder/sql/fieldstrategy.go:69-71 | the column of a field: its snake-cased name without the statement suffix; `ColumnNameNoMeta`, `ColumnNameOfIdentifier` and `ColumnNameVectors` state its properties |
| FieldStrategy.InExcludesNotIn | stdlibgo/querybuilder/sql/fieldstrategy.go:57-63 | a `NotIN` name is never an `IN` name; an `IN` name ends in `IN` but not `NotIN` |
| FieldStrategy.EqualIffNoOperator | stdlibgo/querybuilder/sql/fieldstrategy.go:31-39 | a name is an equality statement exactly when no operator classifier holds of it |
| FieldStrategy.ClassifierMatrix | stdlibgo/querybuilder/sql/fieldstrategy_test.go:38-197 | each test name satisfies exactly the classifier its suffix names, and `Foo` satisfies none |
| FieldStrategy.TrimStatementSuffixPrefix | stdlibgo/querybuilder/sql/fieldstrategy.go:13 | removing a statement suffix keeps a prefix of the snake-cased name, and a non-empty one when the name does not start with `_` |
| FieldStrategy.ColumnNameNoMeta | stdlibgo/querybuilder/sql/fieldstrategy.go:69-71 | a column name contains no `?` and no blank unless the field name does |
| FieldStrategy.ColumnNameOfIdentifier | stdlibgo/querybuilder/sql/fieldstrategy.go:69-71 | the column of an exported field name is non-empty and starts with a lower-case letter |
| FieldStrategy.ColumnNameVectors | stdlibgo/querybuilder/sql/fieldstrategy_test.go:9-36 | the thirteen name-to-column pairs of the column-name test |
| Condition.Condition.BuildQuery | stdlibgo/querybuilder/sql/condition.go:14-60 | the loop's query, args and error are those of the fold over the fields (`WhereClause`), for every statement whose field names are ASCII exported identifiers, the nil pointer included |
| Condition.NewWhereClause | stdlibgo/querybuilder/sql/sql.go:3-7 | the package entry point returns the builder's three results |
| Condition.IsZero | stdlibgo/querybuilder/sql/condition.go:30 | a value is zero when it is its kind's zero value (0, 0.0, the empty string, false, the zero time, a nil slice); `ScanSkipsZero` and `ZeroFieldsDropped` state that such fields are skipped |
| Condition.BuildScope | stdlibgo/querybuilder/sql/condition.go:62-118 | a built predicate carries the field's value as its argument; the argument is skipped only for an `IsNULL` field set to true; every rejection is a value error |
| Condition.ScanFields | stdlibgo/querybuilder/sql/condition.go:22-53 | the fold the loop performs: at most one predicate per field and at most one argument per predicate; a failure it records is a value error |
| Condition.WhereClause | stdlibgo/querybuilder/sql/condition.go:14-60 | the builder's result: `ErrStmtNil` exactly for the nil pointer; a non-empty successful clause starts with `WHERE ` |
| Condition.AccumulatedAppend | stdlibgo/querybuilder/sql/condition.go:44-48 | the accumulated text is empty exactly when nothing was gathered; one more predicate adds `AND ` (except first), the predicate and a blank |
| Condition.ScanSkipsZero | stdlibgo/querybuilder/sql/condition.go:29-34 | a zero field leaves the scan unchanged |
| Condition.ScanGrowsAt | stdlibgo/querybuilder/sql/condition.go:39-52 | a successful predicate is appended, and its argument too unless skipped |
| Condition.ScanFailsAt | stdlibgo/querybuilder/sql/condition.go:39-42 | a rejected field fixes the result: what was gathered before it, plus the error |
| Condition.ScanStopsAtFailure | stdlibgo/querybuilder/sql/condition.go:39-42 | once a prefix has failed, the remaining fields change nothing |
| Condition.ScopeTidy | stdlibgo/querybuilder/sql/condition.go:62-118 | every predicate built for a non-zero value of an exported field has no blank at either end |
| Condition.ScanFragmentsTidy | stdlibgo/querybuilder/sql/condition.go:22-53 | every predicate the loop gathers has no blank at either end |
| Condition.TrimAccumulated | stdlibgo/querybuilder/sql/condition.go:55-57 | trimming the accumulated text gives exactly the predicates joined by ` AND ` |
| Condition.EqualityScope | stdlibgo/querybuilder/sql/condition.go:115 | an equality or `NotEQ` name builds `col = ?` with its value as argument |
| Condition.LikeScope | stdlibgo/querybuilder/sql/condition.go:65-68 | a `Like` name builds `LOWER(col) LIKE LOWER(?)` for any value |
| Condition.GteScope | stdlibgo/querybuilder/sql/condition.go:70-79 | a `GTE` name builds `col >= ?` for a listed number, otherwise the number-or-date error |
| Condition.LteScope | stdlibgo/querybuilder/sql/condition.go:81-90 | an `LTE` name builds `col <= ?` for a listed number or a time, otherwise the number-or-date error |
| Condition.NotInScope | stdlibgo/querybuilder/sql/condition.go:92-94 | a `NotIN` name builds `col NOT IN (?)` |
| Condition.InScope | stdlibgo/querybuilder/sql/condition.go:95-98 | an `IN` name builds `col IN (?)` |
| Condition.NullScope | stdlibgo/querybuilder/sql/condition.go:100-113 | an `IsNULL` name builds `col IS NULL` with no argument for true, an empty predicate for false, the boolean error otherwise |
| ConditionLemmas.NilStatementFails | stdlibgo/querybuilder/sql/condition.go:15-19 | a nil statement pointer gives `ErrStmtNil`, an empty query and no arguments |
| ConditionLemmas.NonZero | stdlibgo/querybuilder/sql/condition.go:29-34 | the fields kept are all non-zero |
| ConditionLemmas.ZeroFieldsDropped | stdlibgo/querybuilder/sql/condition.go:29-34 | scanning a statement gives what scanning only its non-zero fields gives |
| ConditionLemmas.AllZeroGivesEmpty | stdlibgo/querybuilder/sql/condition.go:22-59 | a statement whose fields are all zero gives an empty clause, no arguments and no error |
| ConditionLemmas.ScanAppend | stdlibgo/querybuilder/sql/condition.go:22-53 | scanning `a + b` is scanning `a` then `b`: predicates and arguments concatenate, and a failure in `a` stops everything |
| ConditionLemmas.FirstFailureAborts | stdlibgo/querybuilder/sql/condition.go:39-42 | the first rejected field's error is returned along with the unprefixed text and the arguments gathered before it, whatever follows |
| ConditionLemmas.LoneFailureIsEmpty | stdlibgo/querybuilder/sql/condition.go:39-42 | a rejected field after only zero fields gives an empty query and no arguments |
| ConditionLemmas.SuffixSelectsTemplate | stdlibgo/querybuilder/sql/condition.go:62-118 | each classifier selects its own template: the order of the tests never matters |
| ConditionLemmas.ComparisonTypeChecks | stdlibgo/querybuilder/sql/condition.go:70-90 | `GTE` rejects a time and an `int16`, `LTE` accepts a time, and both reject a string |
| ConditionLemmas.ScopePlaceholders | stdlibgo/querybuilder/sql/condition.go:62-118 | a built predicate holds one `?` when it has an argument and none when the argument is skipped |
| ConditionLemmas.JoinCount | stdlibgo/querybuilder/sql/condition.go:44-48 | adding one predicate to the AND-join adds its placeholders |
| ConditionLemmas.ScanPlaceholders | stdlibgo/querybuilder/sql/condition.go:22-53 | the joined predicates hold exactly one `?` per collected argument |
| ConditionLemmas.PlaceholdersMatchArgs | stdlibgo/querybuilder/sql/condition.go:14-60 | on success the clause holds exactly as many placeholders as there are arguments |
| ConditionLemmas.SingleField | stdlibgo/querybuilder/sql/condition.go:22-59 | one non-zero field whose predicate builds gives `WHERE` + predicate and its argument |
| ConditionLemmas.SingleFailure | stdlibgo/querybuilder/sql/condition.go:39-42 | one non-zero field that is rejected gives an empty query, no arguments and its error |
| ConditionLemmas.TwoFields | stdlibgo/querybuilder/sql/condition.go:22-59 | two built fields give `WHERE p1 AND p2` with both arguments in order |
| ConditionLemmas.ConditionVectors | stdlibgo/querybuilder/sql/sql_test.go:17-72 | the twelve rows of the builder's test table, errors included |
| ConditionLemmas.ClosedNotEqIsEquality | stdlibgo/querybuilder/sql/condition.go:92-115 | a `ClosedNotEQ` filter set to true selects `closed = ?`, an equality |
| ConditionLemmas.StartDateGteRejected | stdlibgo/querybuilder/sql/condition.go:70-79 | a `StartDateGTE` filter holding a time is rejected with the number-or-date error |
| Db.ReportedError | stdlibgo/sql/db.go:41-47 | the builder's nil-statement error becomes `ErrWhereStructNil`; every other error is passed on unchanged |
| Db.SetClause | stdlibgo/sql/db.go:64-70 | the SET clause over the columns' names is empty exactly when there are no columns |
| Db.DeleteStatement | stdlibgo/sql/db.go:41-51 | the DELETE sent: it fails exactly when the builder fails, with `ErrWhereStructNil` exactly for the nil-statement error; otherwise its arguments are the WHERE arguments |
| Db.UpdateStatement | stdlibgo/sql/db.go:76-87 | the UPDATE sent: it fails exactly when the builder fails, with `ErrWhereStructNil` exactly for the nil-statement error; otherwise its arguments are the SET values in column order followed by the WHERE arguments |
| Db.Delete | stdlibgo/sql/db.go:34-52 | the statement sent is `DELETE FROM t <where>` with the WHERE arguments, or the reported builder error |
| Db.BuildSetClause | stdlibgo/sql/db.go:60-73 | the loop's clause and arguments are `SET a = ?, b = ?` over the columns in order and the values in order |
| Db.SetClauseStep | stdlibgo/sql/db.go:64-70 | one step of the iteration starts the clause with `SET` or adds a comma, and appends the value |
| Db.Updates | stdlibgo/sql/db.go:54-88 | the statement sent is `UPDATE t <set> <where>` with the SET values before the WHERE arguments, or the reported builder error |
| Db.SetTextStep | stdlibgo/sql/db.go:64-68 | the first assignment starts with `SET `, later ones with `, ` |
| Db.SetTextEmpty | stdlibgo/sql/db.go:64-68 | the SET clause is empty exactly when there are no columns |
| Db.NilFilterReported | stdlibgo/sql/db.go:76-82 | a nil filter makes both Delete and Updates return `ErrWhereStructNil` and send nothing |
| Db.BuilderErrorPassedOn | stdlibgo/sql/db.go:76-82 | any other builder error is a value error and is returned unchanged by both |
| Db.EmptyFilterDeletesAll | stdlibgo/sql/db.go:49 | a filter whose fields are all zero sends `DELETE FROM t ` with no arguments |
| Db.SetTextPlaceholders | stdlibgo/sql/db.go:64-68 | a SET clause over n names holds n placeholders |
| Db.SetArgsAt | stdlibgo/sql/db.go:70 | the i-th SET argument is the i-th column's value |
| Db.SetPlaceholders | stdlibgo/sql/db.go:60-73 | the SET clause has one placeholder per argument, and the arguments are the values in order |
| Db.DeleteKeepsPlaceholders | stdlibgo/sql/db.go:49-51 | wrapping a balanced WHERE clause in DELETE keeps placeholders and arguments balanced |
| Db.UpdateKeepsPlaceholders | stdlibgo/sql/db.go:84-87 | wrapping a SET clause and a balanced WHERE clause in UPDATE keeps them balanced |
| Db.UpdateTextCount | stdlibgo/sql/db.go:84 | the fixed words and the table name of an UPDATE add no placeholder |
| Db.DeletePlaceholders | stdlibgo/sql/db.go:34-52 | every DELETE that is sent has exactly one argument per placeholder |
| Db.UpdatePlaceholders | stdlibgo/sql/db.go:54-88 | every UPDATE that is sent has exactly one argument per placeholder |
| Paging.Offset | stdlibgo/querybuilder/sql/paging_test.go:19-34 | the offset argument is `(page - 1) * size` whenever that fits in a uint |
| Paging.Wrap | stdlibgo/querybuilder/sql/paging_test.go:11 | uint arithmetic: the value is kept when it fits, and is congruent to it modulo 2^64 otherwise |
| Paging.PageCount | stdlibgo/querybuilder/sql/paging_test.go:21-33 | the last page is the smallest page count whose pages cover every row |
| Paging.Paging.constructor | stdlibgo/querybuilder/sql/paging_test.go:20 | the literal sets page, size and total |
| Paging.Paging.Normalize | stdlibgo/querybuilder/sql/paging_test.go:42-46 | a zero page becomes 1, a zero size becomes 12, everything else is kept |
| Paging.NewPaging | stdlibgo/querybuilder/sql/paging_test.go:37-40 | a new paging is page 1 of size 12 over the given total |
| Paging.NormalizedZero | stdlibgo/querybuilder/sql/paging_test.go:42-46 | the zero paging normalises to page 1, size 12, total 0 |
| Paging.Paging.BuildQuery | stdlibgo/querybuilder/sql/paging_test.go:51-52 | the clause is always `LIMIT ? OFFSET ?` with two arguments: the page size, then `(page - 1) * size` for a normalised paging whose offset fits in a uint |
| Paging.Paging.LastPage | stdlibgo/querybuilder/sql/paging_test.go:53 | the last page is the fewest pages that cover every row: `last * size` reaches the total and, when there is a page, `(last - 1) * size` falls short of it |
| Paging.PagesWithinTotal | stdlibgo/querybuilder/sql/paging_test.go:48-54 | every page up to the last starts at an existing row |
| Paging.PastLastPageIsEmpty | stdlibgo/querybuilder/sql/paging_test.go:48-54 | a page past the last starts at or after the row count |
| Paging.NextPageFollows | stdlibgo/querybuilder/sql/paging_test.go:19-34 | the next page starts exactly one page size later |
| Paging.BuildQueryVectors | stdlibgo/querybuilder/sql/paging_test.go:15-35 | the four rows of the paging test: arguments and last page |
| ClassType.RegistrySize | module/accounting/repository/sql/classType.go:14-21 | the registry holds six types |
| ClassType.RegistryShape | module/accounting/repository/sql/classType.go:5-21 | the keys are exactly 1..6, each entry carries its key as id, and the names are as listed |
| ClassType.BalanceSheetTypes | module/accounting/repository/sql/reader.go:464 | among the registered types, those in the balance-sheet range are exactly Asset, Liability and Equity |
| ClassType.LookupByID | module/accounting/repository/sql/reader.go:325-327 | a lookup returns the entry with the requested id for 1..6 and the zero value exactly otherwise |
| Config.Validate | stdlibgo/config/option.go:15-29 | the error for the first missing option in the order Path, Type, Logger, and none exactly when all three are set |
| Config.Violations | stdlibgo/config/option.go:15-29 | every requirement broken, in check order |
| Config.MessagesDistinct | stdlibgo/config/option.go:17-25 | the three messages are pairwise different, so the caller can tell the cases apart |
| Config.FirstViolationReported | stdlibgo/config/option.go:15-29 | validation succeeds exactly when nothing is broken, reports the first broken requirement, and ignores RestartOnChange |
| Config.LaterChecksMasked | stdlibgo/config/option.go:16-22 | a missing Path hides every other problem, and a missing Type hides a missing Logger |
| AccountingUsecase.GetAccountClassTypeList | module/accounting/usecase/reader.go:22-28 | over a registry keyed 1..n, the list has n entries and entry i is type i + 1 |
| AccountingUsecase.GetAccountClassTypeByID | module/accounting/usecase/reader.go:30-32 | the registered entry, or the zero value for an unknown id |
| AccountingUsecase.LookupRange | module/accounting/usecase/reader.go:22-32 | over a registry keyed 1..n without a zero entry, a lookup finds something exactly for ids 1..n |
| AccountingUsecase.RepositoryRegistryLookup | module/accounting/usecase/reader.go:30-32 | over the repository's six types, each id 1..6 finds its own type and every other id the zero value |
| AccountingReader.ValidatePreferences | module/accounting/repository/sql/reader.go:417-453 | nil exactly when no preference has an error; otherwise every error of every preference, in input order |
| AccountingReader.CollectErrors | module/accounting/repository/sql/reader.go:428-446 | the errors of a list, preference by preference; `CollectErrorsAppend`, `NoErrorsIffEachClean` and `ErrorsNamePreferences` state its properties |
| AccountingReader.CollectErrorsAppend | module/accounting/repository/sql/reader.go:428-446 | validating two lists in sequence gives their errors in sequence |
| AccountingReader.NoErrorsIffEachClean | module/accounting/repository/sql/reader.go:448-452 | the list has no errors exactly when each preference has none |
| AccountingReader.PreferenceErrors | module/accounting/repository/sql/reader.go:430-445 | one preference records at most two errors, each naming its decimal id |
| Text.FormatInt | module/accounting/repository/sql/reader.go:430 | the decimal rendering of `%d`: non-empty, a leading `-` exactly for a negative number, digits elsewhere; `ParseFormatInt` and `FormatIntInjective` show it can be read back and tells ids apart |
| AccountingReader.ErrorsNamePreferences | module/accounting/repository/sql/reader.go:428-446 | every recorded error names the id of one of the preferences |
| AccountingReader.CheckNamesPreference | module/accounting/repository/sql/reader.go:430-445 | the validation's check names its preference in every error |
| AccountingReader.UnsetAccountNotLookedUp | module/accounting/repository/sql/reader.go:432 | a null or zero account is not looked up, so the lookup cannot affect its errors |
| AccountingReader.LookupOutcomes | module/accounting/repository/sql/reader.go:432-440 | not found gives `Account not found` and the later check; a driver error gives its message and skips the check; a found class only the check |
| AccountingReader.OnlyRetainedEarningsChecked | module/accounting/repository/sql/reader.go:442-445 | a preference other than retained earnings records at most one error, and none when its lookup succeeds |
| AccountingReader.RetainedEarningsAccountMissing | module/accounting/repository/sql/reader.go:434-445 | a missing retained-earnings account records both `Account not found` and the balance-sheet error |
| AccountingReader.GetAccountClassTypeByID | module/accounting/repository/sql/reader.go:325-327 | the registered type with the requested id for 1..6, the zero value otherwise |
| AccountingReader.GetAllAccountTypes | module/accounting/repository/sql/reader.go:316-323 | six types ordered by id, each equal to the lookup of its id; exactly the first three are balance-sheet types |
| AccountingReader.GetAllBankAccountTypes | module/accounting/repository/sql/reader.go:105-123 | three types with ids 1, 2, 3, named Cash Account, Chequing Account and Saving Account; the credit type is not offered |
| AccountingReader.FirstOpen | module/accounting/repository/sql/reader.go:203-209 | an open row that sorts no later than any other open row, or none exactly when every row is closed |
| AccountingReader.GetActiveFiscalYear | module/accounting/repository/sql/reader.go:202-217 | an open year that sorts no later than any open year (so also one with the smallest id); `ErrNoRows` under code 31 exactly when none is open; the driver fault under code 31 |
| AccountingReader.ActiveFiscalYearIsSmallestOpenID | module/accounting/repository/sql/reader.go:206-208 | with distinct ids, the active year is the open year with the smallest id |
| AccountingReader.LedgerWhereSet | module/accounting/repository/sql/reader.go:89-94 | the ledger filter for a non-zero account is `WHERE account_id = ?` with the id |
| AccountingReader.LedgerWhere | module/accounting/repository/sql/reader.go:89-94 | the ledger filter never fails; for the zero id it is empty |
| AccountingReader.RowsOfAccount | module/accounting/repository/sql/reader.go:96-97 | the rows kept are rows of the table that belong to the account, and there are none exactly when no row does |
| AccountingReader.SelectLedger | module/accounting/repository/sql/reader.go:96-97 | the rows the ledger query selects are rows of the table |
| AccountingReader.GetGeneralLedger | module/accounting/repository/sql/reader.go:89-103 | for a non-zero id, a row of the account, with `ErrNoRows` exactly when no row matches; for id 0, the table's first row, with `ErrNoRows` exactly when the table is empty; every error under code 41, wrapping the driver fault or `ErrNoRows` |
| AccountingReader.AccountHasTransaction | module/accounting/repository/sql/reader.go:75-87 | as written: an error exactly when the lookup fails, including for an account with no rows; for a non-zero id, true exactly when a row of the account exists; for id 0, true exactly when the table's first row is of account 0 |
| AccountingReader.AccountZeroReadsFirstRow | module/accounting/repository/sql/reader.go:75-97 | with rows of accounts 5 and 0, account 0 is answered false without error, because its unfiltered query reads only the first row |
| AccountingReader.NoLedgerRowsIsAnError | module/accounting/repository/sql/reader.go:76-79 | an account without ledger rows is answered with a code-41 `ErrNoRows` error instead of false |
| AccountingReader.AccountHasTransactionCorrected | module/accounting/repository/sql/reader.go:75-87 | an error exactly when the driver fails; for a non-zero id, true exactly when a row of the account exists; for id 0, true exactly when the table's first row is of account 0 |
| AccountingReader.CorrectedAgreesWhenFound | module/accounting/repository/sql/reader.go:81-84 | the corrected check never errs without a driver fault, and agrees with the original whenever the original answers true |
| AccountingReader.SelectEndsWithTable | module/accounting/repository/sql/reader.go:274-282 | the bare select does not end in `AND`, so the cut is applied only after the class-type test |
| AccountingReader.AccountsQuery | module/accounting/repository/sql/reader.go:274-286 | the listing's arguments are the filter's arguments, followed, with a class type, by that class type |
| AccountingReader.TrailingAnd | module/accounting/repository/sql/reader.go:278-283 | the class-type test ends in `AND`, and cutting four characters removes exactly ` AND` |
| AccountingReader.BuildAccountsQuery | module/accounting/repository/sql/reader.go:274-286 | the appended query and arguments are the listing's statement (`AccountsQuery`) |
| AccountingReader.GetAllAccounts | module/accounting/repository/sql/reader.go:266-294 | filter errors under code 16; the database's answer to the assembled statement; a failing select under code 11 with no rows |
| AccountingReader.WhereClauseKeyword | stdlibgo/querybuilder/sql/condition.go:55-57 | a non-empty successful where clause starts with `WHERE ` |
| AccountingReader.HeadPlaceholder | module/accounting/repository/sql/reader.go:274-278 | the listing's head holds exactly one placeholder, and it is its last character |
| AccountingReader.AsWrittenMisplacesFilter | module/accounting/repository/sql/reader.go:275-286 | with a class type and a filter, the text reads `... AND WHERE <conditions>` and the filter's values are bound before the class type |
| AccountingReader.AccountFilterByID | module/accounting/repository/sql/statement.go:15-17 | an account filter on a non-zero ID is `WHERE id = ?` with that id |
| AccountingReader.ClassTypeWithIDFilter | module/accounting/repository/sql/reader.go:275-286 | account 7 of class type 2 sends `... type_id = ? AND WHERE id = ?` with arguments 7, 2 |
| AccountingReader.CorrectedBindsInOrder | module/accounting/repository/sql/reader.go:275-286 | the corrected query binds the class type to the head's placeholder, then one filter placeholder per filter argument in order, with no second WHERE |
| AccountingReader.CorrectedListingBindsInOrder | module/accounting/repository/sql/reader.go:266-286 | every filter the builder accepts meets the corrected listing's conditions: balanced placeholders and a leading `WHERE ` |

## Left out

- Column-name conversion: the function `ColumnName` (with its initialisms list and case conversion) is not part of the shown files. `FieldStrategy.ColumnName` is a concrete snake-case conversion that strips the statement suffixes of fieldstrategy.go:13. It agrees with the thirteen vectors of the column-name test, but it does not model the initialisms table.
- The Paging type's own source is not part of this model. Its fields, `NewPaging`, `Normalize`, `BuildQuery` and `LastPage` are modelled from paging_test.go alone: the normalisation rule, the default size of 12 and the rounding-up page count are the ones the tests pin down.
- Paging.Paging.LastPage: requires a non-zero page size. The tests never call it with size 0, and the division by zero is not modelled.
- Paging.Offset: the offset is the uint product modulo 2^64; a page of 0 wraps, and it is reached only before `Normalize`.
- `Rebind`, `ExecContext`, `GetContext`, `SelectContext` and the SQL drivers are not executed. `Delete` and `Updates` return the statement they would execute. Reader queries are answered by a `Table` value (rows, or a driver fault) or by a `db` function parameter. The SQL semantics of a query (its WHERE, ORDER BY and LIMIT) are written out as the rows it selects.
- `GetGeneralLedger` is modelled for the filter `AccountHasTransaction` builds, which sets AccountID only; GeneralLedgerStatement's full field list is not part of this model. Its builder-error branch cannot be reached with that filter, and is not written.
- `GetActiveFiscalYear`'s query is modelled by what it selects: the open year first in (id, start date, end date) order.
- `GetAllAccounts` takes the class type as a separate parameter: reader.go:275 reads `stmt.ClassType`, but the shown AccountStatement (statement.go:15-17) has no ClassType field. If ClassType were a field of the statement, the builder (which has no tag handling) would itself add `class_type = ?` with the class type whenever it is positive. The cut at reader.go:282-283 would then never be taken, and the first finding's input would read `... AND WHERE id = ? AND class_type = ?` with arguments 7, 2, 2. The model follows the shown statement.
- `GetAllAccounts`: the rows a failing select may have partly filled are modelled as none.
- `ValidatePreferences` takes the class lookup, the RetainedEarnings id and IsBalanceSheetAccount as parameters, because their definitions are not part of the shown files. `RetainedEarningsAccountMissing` instantiates the balance-sheet test with the class-type range of reader.go:464.
- `FormatInt` renders an integer in decimal, as `fmt.Sprintf("%d", …)` does. Error wrapping (`PropagateWithCode`, stack traces, messages) keeps only the code and the cause.
- The use-case reader's `classTypes` map is not defined in the shown files; it is a parameter, assumed keyed 1..n.
- The use-case pass-through getters (module/accounting/usecase/reader.go:34-44) only delegate to the repository, and are not modelled.
- Go's map iteration order: the registry loops visit the ids upwards. Since each entry goes to its own slot `id - 1`, the result does not depend on the order.
- Condition.Condition.BuildQuery: requires field names that are ASCII exported identifiers. The panic on an unexported field (condition.go:29) and non-ASCII names are not modelled.
- Condition.NewWhereClause: same requirement as `BuildQuery`, which it calls.
- Db.Delete: same requirement on the filter's field names, for the call to the builder.
- Db.Updates: same requirement on the filter's field names, for the call to the builder.
- AccountingReader.GetAllAccounts: same requirement on the filter's field names, for the call to the builder.
- Reflection is modelled by a statement datatype: a nil pointer, or the struct's fields in declaration order, each with a tagged value. A nil slice and an empty slice are told apart; a nil argument list and an empty one are not.
- Floating-point values are kept as reals; amounts, posting and the writers are outside the modelled core.
- Updates: the iteration over `dest` (`utils.ForIn`) is modelled as a sequence of key/value columns in iteration order. ForIn's own behaviour and its reflection over structs and maps are not part of this model.
- Config's logger is modelled by its presence only.

## Findings

| source | as written | input that shows it | evidently intended | confidence | as-written member | corrected member |
|---|---|---|---|---|---|---|
| module/accounting/repository/sql/reader.go:275-286 | with a class type, the head ends in `type_id = ? AND` and the filter's WHERE clause is appended after it unchanged; the class type is appended after the filter's arguments | an account filter with ID 7 and class type 2: the text reads `... AND account_classes.type_id = ? AND WHERE id = ?`, and the values bind type_id to 7 and id to 2 | the filter's conditions without their WHERE keyword, joined with AND, and the class type bound first | not executed | AccountingReader.AsWrittenMisplacesFilter, AccountingReader.ClassTypeWithIDFilter | AccountingReader.AccountsQueryCorrected, AccountingReader.CorrectedBindsInOrder |
| module/accounting/repository/sql/reader.go:76-78 | the no-rows exemption compares against `sql.ErrNoRows`, but GetGeneralLedger wraps every error with a code (reader.go:97-99), so the comparison never holds | a fault-free ledger with no row for account 5: the answer is false together with a code-41 error | no rows means no transaction: false and no error | not executed | AccountingReader.NoLedgerRowsIsAnError | AccountingReader.AccountHasTransactionCorrected, AccountingReader.CorrectedAgreesWhenFound |
