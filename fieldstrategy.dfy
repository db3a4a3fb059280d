/** The naming convention of the WHERE-clause builder: a filter field's name
    ends in an operator suffix, and its column name is the snake-cased name
    with that suffix removed. */
module FieldStrategy {
  import opened Text

  predicate IsNotEqualStatement(f: string) { HasSuffix(f, "NotEQ") }
  predicate IsLikeStatement(f: string) { HasSuffix(f, "Like") }
  predicate IsGreaterThanEqualStatement(f: string) { HasSuffix(f, "GTE") }
  predicate IsLessThanEqualStatement(f: string) { HasSuffix(f, "LTE") }
  predicate IsNotInStatement(f: string) { HasSuffix(f, "NotIN") }
  predicate IsInStatement(f: string) { HasSuffix(f, "IN") && !IsNotInStatement(f) }
  predicate IsNull(f: string) { HasSuffix(f, "IsNULL") }

  predicate IsEqualStatement(f: string) {
    && !IsNotEqualStatement(f)
    && !IsLikeStatement(f)
    && !IsGreaterThanEqualStatement(f)
    && !IsLessThanEqualStatement(f)
    && !IsInStatement(f)
    && !IsNotInStatement(f)
    && !IsNull(f)
  }

  /** How many of the seven operator classifiers hold of `f`. */
  function OperatorCount(f: string): nat {
    (if IsNotEqualStatement(f) then 1 else 0) +
    (if IsLikeStatement(f) then 1 else 0) +
    (if IsGreaterThanEqualStatement(f) then 1 else 0) +
    (if IsLessThanEqualStatement(f) then 1 else 0) +
    (if IsInStatement(f) then 1 else 0) +
    (if IsNotInStatement(f) then 1 else 0) +
    (if IsNull(f) then 1 else 0)
  }

  /** A struct field name the builder can read: an exported Go identifier. */
  predicate ExportedIdentifier(name: string) {
    && |name| > 0
    && IsUpper(name[0])
    && forall i :: 0 <= i < |name| ==> IsUpper(name[i]) || IsLower(name[i]) || IsDigit(name[i]) || name[i] == '_'
  }

  /** The snake-cased forms of the operator suffixes, in the order they are tried. */
  const StatementSuffixes: seq<string> := ["_not_eq", "_like", "_gte", "_lte", "_not_in", "_in", "_is_null"]

  /** Snake-casing of position `i`: a word starts at an upper-case letter that
      follows a lower-case letter or digit, or that ends a run of capitals
      (is followed by a lower-case letter). */
  function SnakePiece(s: string, i: nat): string
    requires i < |s|
  {
    var c := s[i];
    if IsUpper(c) && 0 < i &&
       (IsLower(s[i - 1]) || IsDigit(s[i - 1]) || (IsUpper(s[i - 1]) && i + 1 < |s| && IsLower(s[i + 1])))
    then ['_', ToLower(c)]
    else [ToLower(c)]
  }

  /** The snake-cased pieces of the first `n` characters. */
  function SnakeUpTo(s: string, n: nat): string
    requires n <= |s|
  {
    if n == 0 then "" else SnakeUpTo(s, n - 1) + SnakePiece(s, n - 1)
  }

  function SnakeCase(s: string): string {
    SnakeUpTo(s, |s|)
  }

  /** Removes the first suffix of `suffixes` that `s` ends with. */
  function TrimStatementSuffix(s: string, suffixes: seq<string>): string
    decreases |suffixes|
  {
    if suffixes == [] then s
    else if HasSuffix(s, suffixes[0]) then s[..|s| - |suffixes[0]|]
    else TrimStatementSuffix(s, suffixes[1..])
  }

  /** Trimming keeps a prefix, and a non-empty one when every suffix starts
      with an underscore and the string does not. */
  lemma {:induction false} TrimStatementSuffixPrefix(s: string, suffixes: seq<string>)
    ensures var r := TrimStatementSuffix(s, suffixes); |r| <= |s| && r == s[..|r|]
    ensures ((forall k :: 0 <= k < |suffixes| ==> |suffixes[k]| > 0 && suffixes[k][0] == '_') &&
             |s| > 0 && s[0] != '_') ==> |TrimStatementSuffix(s, suffixes)| > 0
    decreases |suffixes|
  {
    if suffixes != [] && !HasSuffix(s, suffixes[0]) {
      TrimStatementSuffixPrefix(s, suffixes[1..]);
      var tail := suffixes[1..];
      assert forall k :: 0 <= k < |tail| ==> tail[k] == suffixes[k + 1];
    }
  }

  /** The column a field name stands for. */
  function ColumnName(f: string): (column: string) {
    TrimStatementSuffix(SnakeCase(f), StatementSuffixes)
  }

  // ---- the classifiers ----

  /** A name that carries a suffix has each of the suffix's characters at the
      matching distance from its end. */
  lemma SuffixAt(f: string, x: string, k: nat)
    requires HasSuffix(f, x) && k < |x|
    ensures f[|f| - |x| + k] == x[k]
  {
    assert f[|f| - |x|..][k] == x[k];
  }

  /** `IN` never holds of a name ending in `NotIN`. */
  lemma InExcludesNotIn(f: string)
    ensures IsNotInStatement(f) ==> !IsInStatement(f)
    ensures IsInStatement(f) ==> HasSuffix(f, "IN") && !HasSuffix(f, "NotIN")
  {
  }

  /** At most one operator classifier holds of any name: the suffixes are
      told apart by their last character, and GTE from LTE by the third
      from last. */
  lemma AtMostOneOperator(f: string)
    ensures OperatorCount(f) <= 1
  {
    var n := |f|;
    if IsNotEqualStatement(f) { SuffixAt(f, "NotEQ", 4); }
    if IsLikeStatement(f) { SuffixAt(f, "Like", 3); }
    if IsGreaterThanEqualStatement(f) { SuffixAt(f, "GTE", 2); SuffixAt(f, "GTE", 0); }
    if IsLessThanEqualStatement(f) { SuffixAt(f, "LTE", 2); SuffixAt(f, "LTE", 0); }
    if IsNotInStatement(f) { SuffixAt(f, "NotIN", 4); }
    if IsInStatement(f) { SuffixAt(f, "IN", 1); }
    if IsNull(f) { SuffixAt(f, "IsNULL", 5); }
  }

  /** The equality statement is exactly the case where no operator suffix is present. */
  lemma EqualIffNoOperator(f: string)
    ensures IsEqualStatement(f) <==> OperatorCount(f) == 0
  {
  }

  /** The one-hot matrix of fieldstrategy_test's classifier tests: each test
      name satisfies exactly the classifier its suffix names, and "Foo" none. */
  lemma ClassifierMatrix()
    ensures IsEqualStatement("Foo") && OperatorCount("Foo") == 0
    ensures IsNotEqualStatement("FooNotEQ") && OperatorCount("FooNotEQ") == 1
    ensures IsLikeStatement("FooLike") && OperatorCount("FooLike") == 1
    ensures IsGreaterThanEqualStatement("FooGTE") && OperatorCount("FooGTE") == 1
    ensures IsLessThanEqualStatement("FooLTE") && OperatorCount("FooLTE") == 1
    ensures IsNotInStatement("FooNotIN") && OperatorCount("FooNotIN") == 1
    ensures IsInStatement("FooIN") && OperatorCount("FooIN") == 1
  {
    ClassifiersOfFoo();
    ClassifiersOfFooNotEQ();
    ClassifiersOfFooLike();
    ClassifiersOfFooGTE();
    ClassifiersOfFooLTE();
    ClassifiersOfFooNotIN();
    ClassifiersOfFooIN();
  }

  /** A name differing from a suffix at one of its positions does not end in it. */
  lemma NotSuffix(f: string, x: string, k: nat)
    requires k < |x| <= |f| && f[|f| - |x| + k] != x[k]
    ensures !HasSuffix(f, x)
  {
    if HasSuffix(f, x) {
      SuffixAt(f, x, k);
    }
  }

  lemma ClassifiersOfFoo()
    ensures IsEqualStatement("Foo") && OperatorCount("Foo") == 0
  {
    var foo := "Foo";
    NotSuffix(foo, "GTE", 0);
    NotSuffix(foo, "LTE", 0);
    NotSuffix(foo, "IN", 0);
    assert !HasSuffix(foo, "NotEQ") && !HasSuffix(foo, "Like") && !HasSuffix(foo, "NotIN") && !HasSuffix(foo, "IsNULL");
  }

  lemma ClassifiersOfFooNotEQ()
    ensures IsNotEqualStatement("FooNotEQ") && OperatorCount("FooNotEQ") == 1
  {
    var f := "FooNotEQ";
    assert HasSuffix(f, "NotEQ");
    AtMostOneOperator(f);
  }

  lemma ClassifiersOfFooLike()
    ensures IsLikeStatement("FooLike") && OperatorCount("FooLike") == 1
  {
    var f := "FooLike";
    assert HasSuffix(f, "Like");
    AtMostOneOperator(f);
  }

  lemma ClassifiersOfFooGTE()
    ensures IsGreaterThanEqualStatement("FooGTE") && OperatorCount("FooGTE") == 1
  {
    var f := "FooGTE";
    assert HasSuffix(f, "GTE");
    AtMostOneOperator(f);
  }

  lemma ClassifiersOfFooLTE()
    ensures IsLessThanEqualStatement("FooLTE") && OperatorCount("FooLTE") == 1
  {
    var f := "FooLTE";
    assert HasSuffix(f, "LTE");
    AtMostOneOperator(f);
  }

  lemma ClassifiersOfFooNotIN()
    ensures IsNotInStatement("FooNotIN") && OperatorCount("FooNotIN") == 1
  {
    var f := "FooNotIN";
    assert HasSuffix(f, "NotIN");
    AtMostOneOperator(f);
  }

  lemma ClassifiersOfFooIN()
    ensures IsInStatement("FooIN") && OperatorCount("FooIN") == 1
  {
    var f := "FooIN";
    assert HasSuffix(f, "IN");
    assert !HasSuffix(f, "NotIN") by { assert f[0] != 'N'; }
    AtMostOneOperator(f);
  }

  // ---- column names ----

  lemma ToLowerKeepsMeta(c: char)
    ensures ToLower(c) == '?' <==> c == '?'
    ensures ToLower(c) == ' ' <==> c == ' '
    ensures IsUpper(c) ==> IsLower(ToLower(c))
  {
  }

  lemma {:induction false} SnakeUpToNoMeta(s: string, n: nat)
    requires n <= |s| && NoSqlMeta(s)
    ensures NoSqlMeta(SnakeUpTo(s, n))
  {
    if n > 0 {
      ToLowerKeepsMeta(s[n - 1]);
      SnakeUpToNoMeta(s, n - 1);
    }
  }

  /** Snake-casing starts with the lower-cased first character. */
  lemma {:induction false} SnakeUpToHead(s: string, n: nat)
    requires 0 < n <= |s|
    ensures |SnakeUpTo(s, n)| > 0 && SnakeUpTo(s, n)[0] == ToLower(s[0])
  {
    if n > 1 {
      SnakeUpToHead(s, n - 1);
    }
  }

  /** A column name has no placeholder and no blank unless the field name has one. */
  lemma ColumnNameNoMeta(f: string)
    requires NoSqlMeta(f)
    ensures NoSqlMeta(ColumnName(f))
  {
    SnakeUpToNoMeta(f, |f|);
    TrimStatementSuffixPrefix(SnakeCase(f), StatementSuffixes);
  }

  /** The column of an exported field name is non-empty and starts with a
      lower-case letter: stripping an operator suffix never removes the
      first word. */
  lemma ColumnNameOfIdentifier(f: string)
    requires ExportedIdentifier(f)
    ensures NoSqlMeta(f)
    ensures |ColumnName(f)| > 0 && IsLower(ColumnName(f)[0])
  {
    var s := SnakeCase(f);
    SnakeUpToHead(f, |f|);
    TrimStatementSuffixPrefix(s, StatementSuffixes);
    ToLowerKeepsMeta(f[0]);
    assert ColumnName(f)[0] == s[0];
  }

  lemma SnakeCaseFoo()
    ensures SnakeCase("Foo") == "foo"
  {
    var s := "Foo";
    assert SnakeUpTo(s, 0) == "";
    assert SnakeUpTo(s, 1) == "f";
    assert SnakeUpTo(s, 2) == "fo";
    assert SnakeUpTo(s, 3) == "foo";
  }

  lemma ColumnNameFoo()
    ensures ColumnName("Foo") == "foo"
  {
    SnakeCaseFoo();
    var t := "foo";
    NotSuffix(t, "_in", 0);
  }

  lemma SnakeCaseFooBar()
    ensures SnakeCase("FooBar") == "foo_bar"
  {
    var s := "FooBar";
    assert SnakeUpTo(s, 0) == "";
    assert SnakeUpTo(s, 1) == "f";
    assert SnakeUpTo(s, 2) == "fo";
    assert SnakeUpTo(s, 3) == "foo";
    assert SnakeUpTo(s, 4) == "foo_b";
    assert SnakeUpTo(s, 5) == "foo_ba";
    assert SnakeUpTo(s, 6) == "foo_bar";
  }

  lemma ColumnNameFooBar()
    ensures ColumnName("FooBar") == "foo_bar"
  {
    SnakeCaseFooBar();
    var t := "foo_bar";
    NotSuffix(t, "_not_eq", 0);
    NotSuffix(t, "_like", 0);
    NotSuffix(t, "_gte", 1);
    NotSuffix(t, "_lte", 1);
    NotSuffix(t, "_not_in", 0);
    NotSuffix(t, "_in", 0);
  }

  lemma SnakeCaseID()
    ensures SnakeCase("ID") == "id"
  {
    var s := "ID";
    assert SnakeUpTo(s, 0) == "";
    assert SnakeUpTo(s, 1) == "i";
    assert SnakeUpTo(s, 2) == "id";
  }

  lemma ColumnNameID()
    ensures ColumnName("ID") == "id"
  {
    SnakeCaseID();
    var t := "id";
  }

  lemma SnakeCaseFooID()
    ensures SnakeCase("FooID") == "foo_id"
  {
    var s := "FooID";
    assert SnakeUpTo(s, 0) == "";
    assert SnakeUpTo(s, 1) == "f";
    assert SnakeUpTo(s, 2) == "fo";
    assert SnakeUpTo(s, 3) == "foo";
    assert SnakeUpTo(s, 4) == "foo_i";
    assert SnakeUpTo(s, 5) == "foo_id";
  }

  lemma ColumnNameFooID()
    ensures ColumnName("FooID") == "foo_id"
  {
    SnakeCaseFooID();
    var t := "foo_id";
    NotSuffix(t, "_like", 0);
    NotSuffix(t, "_gte", 0);
    NotSuffix(t, "_lte", 0);
    NotSuffix(t, "_in", 2);
  }

  lemma SnakeCaseFooIDBar()
    ensures SnakeCase("FooIDBar") == "foo_id_bar"
  {
    var s := "FooIDBar";
    assert SnakeUpTo(s, 0) == "";
    assert SnakeUpTo(s, 1) == "f";
    assert SnakeUpTo(s, 2) == "fo";
    assert SnakeUpTo(s, 3) == "foo";
    assert SnakeUpTo(s, 4) == "foo_i";
    assert SnakeUpTo(s, 5) == "foo_id";
    assert SnakeUpTo(s, 6) == "foo_id_b";
    assert SnakeUpTo(s, 7) == "foo_id_ba";
    assert SnakeUpTo(s, 8) == "foo_id_bar";
  }

  lemma ColumnNameFooIDBar()
    ensures ColumnName("FooIDBar") == "foo_id_bar"
  {
    SnakeCaseFooIDBar();
    var t := "foo_id_bar";
    NotSuffix(t, "_not_eq", 1);
    NotSuffix(t, "_like", 0);
    NotSuffix(t, "_gte", 1);
    NotSuffix(t, "_lte", 1);
    NotSuffix(t, "_not_in", 1);
    NotSuffix(t, "_in", 0);
    NotSuffix(t, "_is_null", 0);
  }

  lemma SnakeCaseIDFoo()
    ensures SnakeCase("IDFoo") == "id_foo"
  {
    var s := "IDFoo";
    assert SnakeUpTo(s, 0) == "";
    assert SnakeUpTo(s, 1) == "i";
    assert SnakeUpTo(s, 2) == "id";
    assert SnakeUpTo(s, 3) == "id_f";
    assert SnakeUpTo(s, 4) == "id_fo";
    assert SnakeUpTo(s, 5) == "id_foo";
  }

  lemma ColumnNameIDFoo()
    ensures ColumnName("IDFoo") == "id_foo"
  {
    SnakeCaseIDFoo();
    var t := "id_foo";
    NotSuffix(t, "_like", 0);
    NotSuffix(t, "_gte", 1);
    NotSuffix(t, "_lte", 1);
    NotSuffix(t, "_in", 0);
  }

  lemma SnakeCaseFooiD()
    ensures SnakeCase("FooiD") == "fooi_d"
  {
    var s := "FooiD";
    assert SnakeUpTo(s, 0) == "";
    assert SnakeUpTo(s, 1) == "f";
    assert SnakeUpTo(s, 2) == "fo";
    assert SnakeUpTo(s, 3) == "foo";
    assert SnakeUpTo(s, 4) == "fooi";
    assert SnakeUpTo(s, 5) == "fooi_d";
  }

  lemma ColumnNameFooiD()
    ensures ColumnName("FooiD") == "fooi_d"
  {
    SnakeCaseFooiD();
    var t := "fooi_d";
    NotSuffix(t, "_like", 0);
    NotSuffix(t, "_gte", 0);
    NotSuffix(t, "_lte", 0);
    NotSuffix(t, "_in", 0);
  }

  lemma SnakeCaseFooNotEQ()
    ensures SnakeCase("FooNotEQ") == "foo_not_eq"
  {
    var s := "FooNotEQ";
    assert SnakeUpTo(s, 0) == "";
    assert SnakeUpTo(s, 1) == "f";
    assert SnakeUpTo(s, 2) == "fo";
    assert SnakeUpTo(s, 3) == "foo";
    assert SnakeUpTo(s, 4) == "foo_n";
    assert SnakeUpTo(s, 5) == "foo_no";
    assert SnakeUpTo(s, 6) == "foo_not";
    assert SnakeUpTo(s, 7) == "foo_not_e";
    assert SnakeUpTo(s, 8) == "foo_not_eq";
  }

  lemma ColumnNameFooNotEQ()
    ensures ColumnName("FooNotEQ") == "foo"
  {
    SnakeCaseFooNotEQ();
    var t := "foo_not_eq";
    assert HasSuffix(t, "_not_eq");
  }

  lemma SnakeCaseFooLike()
    ensures SnakeCase("FooLike") == "foo_like"
  {
    var s := "FooLike";
    assert SnakeUpTo(s, 0) == "";
    assert SnakeUpTo(s, 1) == "f";
    assert SnakeUpTo(s, 2) == "fo";
    assert SnakeUpTo(s, 3) == "foo";
    assert SnakeUpTo(s, 4) == "foo_l";
    assert SnakeUpTo(s, 5) == "foo_li";
    assert SnakeUpTo(s, 6) == "foo_lik";
    assert SnakeUpTo(s, 7) == "foo_like";
  }

  lemma ColumnNameFooLike()
    ensures ColumnName("FooLike") == "foo"
  {
    SnakeCaseFooLike();
    var t := "foo_like";
    NotSuffix(t, "_not_eq", 0);
    assert HasSuffix(t, "_like");
  }

  lemma SnakeCaseFooGTE()
    ensures SnakeCase("FooGTE") == "foo_gte"
  {
    var s := "FooGTE";
    assert SnakeUpTo(s, 0) == "";
    assert SnakeUpTo(s, 1) == "f";
    assert SnakeUpTo(s, 2) == "fo";
    assert SnakeUpTo(s, 3) == "foo";
    assert SnakeUpTo(s, 4) == "foo_g";
    assert SnakeUpTo(s, 5) == "foo_gt";
    assert SnakeUpTo(s, 6) == "foo_gte";
  }

  lemma ColumnNameFooGTE()
    ensures ColumnName("FooGTE") == "foo"
  {
    SnakeCaseFooGTE();
    var t := "foo_gte";
    NotSuffix(t, "_not_eq", 0);
    NotSuffix(t, "_like", 0);
    assert HasSuffix(t, "_gte");
  }

  lemma SnakeCaseFooLTE()
    ensures SnakeCase("FooLTE") == "foo_lte"
  {
    var s := "FooLTE";
    assert SnakeUpTo(s, 0) == "";
    assert SnakeUpTo(s, 1) == "f";
    assert SnakeUpTo(s, 2) == "fo";
    assert SnakeUpTo(s, 3) == "foo";
    assert SnakeUpTo(s, 4) == "foo_l";
    assert SnakeUpTo(s, 5) == "foo_lt";
    assert SnakeUpTo(s, 6) == "foo_lte";
  }

  lemma ColumnNameFooLTE()
    ensures ColumnName("FooLTE") == "foo"
  {
    SnakeCaseFooLTE();
    var t := "foo_lte";
    NotSuffix(t, "_not_eq", 0);
    NotSuffix(t, "_like", 0);
    NotSuffix(t, "_gte", 1);
    assert HasSuffix(t, "_lte");
  }

  lemma SnakeCaseFooNotIN()
    ensures SnakeCase("FooNotIN") == "foo_not_in"
  {
    var s := "FooNotIN";
    assert SnakeUpTo(s, 0) == "";
    assert SnakeUpTo(s, 1) == "f";
    assert SnakeUpTo(s, 2) == "fo";
    assert SnakeUpTo(s, 3) == "foo";
    assert SnakeUpTo(s, 4) == "foo_n";
    assert SnakeUpTo(s, 5) == "foo_no";
    assert SnakeUpTo(s, 6) == "foo_not";
    assert SnakeUpTo(s, 7) == "foo_not_i";
    assert SnakeUpTo(s, 8) == "foo_not_in";
  }

  lemma ColumnNameFooNotIN()
    ensures ColumnName("FooNotIN") == "foo"
  {
    SnakeCaseFooNotIN();
    var t := "foo_not_in";
    NotSuffix(t, "_not_eq", 5);
    NotSuffix(t, "_like", 0);
    NotSuffix(t, "_gte", 0);
    NotSuffix(t, "_lte", 0);
    assert HasSuffix(t, "_not_in");
  }

  lemma SnakeCaseFooIN()
    ensures SnakeCase("FooIN") == "foo_in"
  {
    var s := "FooIN";
    assert SnakeUpTo(s, 0) == "";
    assert SnakeUpTo(s, 1) == "f";
    assert SnakeUpTo(s, 2) == "fo";
    assert SnakeUpTo(s, 3) == "foo";
    assert SnakeUpTo(s, 4) == "foo_i";
    assert SnakeUpTo(s, 5) == "foo_in";
  }

  lemma ColumnNameFooIN()
    ensures ColumnName("FooIN") == "foo"
  {
    SnakeCaseFooIN();
    var t := "foo_in";
    NotSuffix(t, "_like", 0);
    NotSuffix(t, "_gte", 0);
    NotSuffix(t, "_lte", 0);
    assert HasSuffix(t, "_in");
  }

  lemma SnakeCaseAccountID()
    ensures SnakeCase("AccountID") == "account_id"
  {
    var s := "AccountID";
    assert SnakeUpTo(s, 0) == "";
    assert SnakeUpTo(s, 1) == "a";
    assert SnakeUpTo(s, 2) == "ac";
    assert SnakeUpTo(s, 3) == "acc";
    assert SnakeUpTo(s, 4) == "acco";
    assert SnakeUpTo(s, 5) == "accou";
    assert SnakeUpTo(s, 6) == "accoun";
    assert SnakeUpTo(s, 7) == "account";
    assert SnakeUpTo(s, 8) == "account_i";
    assert SnakeUpTo(s, 9) == "account_id";
  }

  lemma ColumnNameAccountID()
    ensures ColumnName("AccountID") == "account_id"
  {
    SnakeCaseAccountID();
    var t := "account_id";
    NotSuffix(t, "_not_eq", 0);
    NotSuffix(t, "_like", 0);
    NotSuffix(t, "_gte", 0);
    NotSuffix(t, "_lte", 0);
    NotSuffix(t, "_not_in", 0);
    NotSuffix(t, "_in", 2);
    NotSuffix(t, "_is_null", 0);
  }

  lemma SnakeCaseBarGTE()
    ensures SnakeCase("BarGTE") == "bar_gte"
  {
    var s := "BarGTE";
    assert SnakeUpTo(s, 0) == "";
    assert SnakeUpTo(s, 1) == "b";
    assert SnakeUpTo(s, 2) == "ba";
    assert SnakeUpTo(s, 3) == "bar";
    assert SnakeUpTo(s, 4) == "bar_g";
    assert SnakeUpTo(s, 5) == "bar_gt";
    assert SnakeUpTo(s, 6) == "bar_gte";
  }

  lemma ColumnNameBarGTE()
    ensures ColumnName("BarGTE") == "bar"
  {
    SnakeCaseBarGTE();
    var t := "bar_gte";
    NotSuffix(t, "_not_eq", 0);
    NotSuffix(t, "_like", 0);
    assert HasSuffix(t, "_gte");
  }

  lemma SnakeCaseClosedNotEQ()
    ensures SnakeCase("ClosedNotEQ") == "closed_not_eq"
  {
    var s := "ClosedNotEQ";
    assert SnakeUpTo(s, 0) == "";
    assert SnakeUpTo(s, 1) == "c";
    assert SnakeUpTo(s, 2) == "cl";
    assert SnakeUpTo(s, 3) == "clo";
    assert SnakeUpTo(s, 4) == "clos";
    assert SnakeUpTo(s, 5) == "close";
    assert SnakeUpTo(s, 6) == "closed";
    assert SnakeUpTo(s, 7) == "closed_n";
    assert SnakeUpTo(s, 8) == "closed_no";
    assert SnakeUpTo(s, 9) == "closed_not";
    assert SnakeUpTo(s, 10) == "closed_not_e";
    assert SnakeUpTo(s, 11) == "closed_not_eq";
  }

  lemma ColumnNameClosedNotEQ()
    ensures ColumnName("ClosedNotEQ") == "closed"
  {
    SnakeCaseClosedNotEQ();
    var t := "closed_not_eq";
    assert HasSuffix(t, "_not_eq");
  }


  /** The vectors of fieldstrategy_test's TestColumnName. */
  lemma ColumnNameVectors()
    ensures ColumnName("Foo") == "foo"
    ensures ColumnName("FooBar") == "foo_bar"
    ensures ColumnName("ID") == "id"
    ensures ColumnName("FooID") == "foo_id"
    ensures ColumnName("FooIDBar") == "foo_id_bar"
    ensures ColumnName("IDFoo") == "id_foo"
    ensures ColumnName("FooiD") == "fooi_d"
    ensures ColumnName("FooNotEQ") == "foo"
    ensures ColumnName("FooLike") == "foo"
    ensures ColumnName("FooGTE") == "foo"
    ensures ColumnName("FooLTE") == "foo"
    ensures ColumnName("FooNotIN") == "foo"
    ensures ColumnName("FooIN") == "foo"
  {
    ColumnNameFoo();
    ColumnNameFooBar();
    ColumnNameID();
    ColumnNameFooID();
    ColumnNameFooIDBar();
    ColumnNameIDFoo();
    ColumnNameFooiD();
    ColumnNameFooNotEQ();
    ColumnNameFooLike();
    ColumnNameFooGTE();
    ColumnNameFooLTE();
    ColumnNameFooNotIN();
    ColumnNameFooIN();
  }
}
