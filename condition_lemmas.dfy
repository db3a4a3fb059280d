/** What the WHERE-clause builder promises, stated on its specification
    WhereClause and proved for all statements, followed by the vectors of
    its test table. */
module ConditionLemmas {
  import opened Wrappers
  import opened Text
  import opened FieldStrategy
  import opened Condition

  /** A nil statement pointer is an error with an empty query and no arguments. */
  lemma NilStatementFails()
    ensures WhereClause(NilPointer) == Built("", [], Some(ErrStmtNil))
  {
  }

  /** The fields whose values are not zero, in declaration order. */
  function NonZero(fields: seq<Field>): (r: seq<Field>)
    ensures forall k :: 0 <= k < |r| ==> !IsZero(r[k].value)
    decreases |fields|
  {
    if fields == [] then []
    else
      var f := fields[|fields| - 1];
      NonZero(fields[..|fields| - 1]) + (if IsZero(f.value) then [] else [f])
  }

  /** Zero-valued fields contribute nothing: the scan of a statement is the
      scan of its non-zero fields. */
  lemma {:induction false} ZeroFieldsDropped(fields: seq<Field>)
    ensures ScanFields(fields) == ScanFields(NonZero(fields))
    decreases |fields|
  {
    if fields != [] {
      var init := fields[..|fields| - 1];
      var f := fields[|fields| - 1];
      assert fields == init + [f];
      ZeroFieldsDropped(init);
      ScanAppend(init, [f]);
      if IsZero(f.value) {
        assert [f][..0] == [];
        assert NonZero(fields) == NonZero(init);
      } else {
        assert NonZero(fields) == NonZero(init) + [f];
        ScanAppend(NonZero(init), [f]);
      }
    }
  }

  /** A statement whose every field is zero (nil slices included) gives an
      empty query, no arguments and no error. */
  lemma AllZeroGivesEmpty(fields: seq<Field>)
    requires forall k :: 0 <= k < |fields| ==> IsZero(fields[k].value)
    ensures WhereClause(Struct(fields)) == Built("", [], None)
  {
    ZeroFieldsDropped(fields);
    NoNonZero(fields);
  }

  lemma {:induction false} NoNonZero(fields: seq<Field>)
    requires forall k :: 0 <= k < |fields| ==> IsZero(fields[k].value)
    ensures NonZero(fields) == []
    decreases |fields|
  {
    if fields != [] {
      NoNonZero(fields[..|fields| - 1]);
    }
  }

  /** Scanning one run of fields after another. */
  function Then(first: Scan, second: Scan): Scan {
    if first.failure.Some? then first
    else Scan(first.fragments + second.fragments, first.args + second.args, second.failure)
  }

  /** The builder works field by field in declaration order: the predicates
      and arguments of a + b are those of a followed by those of b, and a
      failure in a hides b entirely. */
  lemma {:induction false} ScanAppend(a: seq<Field>, b: seq<Field>)
    ensures ScanFields(a + b) == Then(ScanFields(a), ScanFields(b))
    decreases |b|
  {
    if b == [] {
      assert a + b == a;
    } else {
      var b' := b[..|b| - 1];
      assert (a + b)[..|a + b| - 1] == a + b';
      ScanAppend(a, b');
      var sa, sb' := ScanFields(a), ScanFields(b');
      if sa.failure.None? && sb'.failure.None? {
        assert (a + b)[|a + b| - 1] == b[|b| - 1];
        var sab := ScanFields(a + b);
        var sb := ScanFields(b);
        assert sab.fragments == sa.fragments + sb.fragments;
        assert sab.args == sa.args + sb.args;
      }
    }
  }

  /** The first failing field aborts the build: no WHERE prefix is added, and
      what is returned is what the fields before it had contributed. */
  lemma FirstFailureAborts(before: seq<Field>, f: Field, after: seq<Field>)
    requires ScanFields(before).failure.None?
    requires !IsZero(f.value) && BuildScope(f.name, f.value).Failure?
    ensures WhereClause(Struct(before + [f] + after)) ==
            Built(Accumulated(ScanFields(before).fragments), ScanFields(before).args,
                  Some(BuildScope(f.name, f.value).error))
  {
    var bf := before + [f];
    assert bf[..|bf| - 1] == before;
    ScanAppend(bf, after);
  }

  /** With only zero fields before it, a failing field gives "" and no arguments. */
  lemma LoneFailureIsEmpty(before: seq<Field>, f: Field, after: seq<Field>)
    requires forall k :: 0 <= k < |before| ==> IsZero(before[k].value)
    requires !IsZero(f.value) && BuildScope(f.name, f.value).Failure?
    ensures WhereClause(Struct(before + [f] + after)) == Built("", [], Some(BuildScope(f.name, f.value).error))
  {
    ZeroFieldsDropped(before);
    NoNonZero(before);
    FirstFailureAborts(before, f, after);
  }

  /** Each operator suffix selects its template on its own: since at most one
      classifier holds, the order in which buildScope tries them never decides
      anything. A NotEQ field has no branch and becomes an equality. */
  lemma SuffixSelectsTemplate(f: string, v: Value)
    ensures IsLikeStatement(f) ==>
      BuildScope(f, v) == Success(Scope("LOWER(" + ColumnName(f) + ") LIKE LOWER(?)", v, false))
    ensures IsGreaterThanEqualStatement(f) ==>
      BuildScope(f, v) == (if IsListedNumber(v) then Success(Scope(ColumnName(f) + " >= ?", v, false))
                           else Failure(ValueError(NumberOrDateMessage(f))))
    ensures IsLessThanEqualStatement(f) ==>
      BuildScope(f, v) == (if IsListedNumber(v) || v.TimeValue? then Success(Scope(ColumnName(f) + " <= ?", v, false))
                           else Failure(ValueError(NumberOrDateMessage(f))))
    ensures IsNotInStatement(f) ==> BuildScope(f, v) == Success(Scope(ColumnName(f) + " NOT IN (?)", v, false))
    ensures IsInStatement(f) ==> BuildScope(f, v) == Success(Scope(ColumnName(f) + " IN (?)", v, false))
    ensures IsNull(f) && v == BoolValue(true) ==> BuildScope(f, v) == Success(Scope(ColumnName(f) + " IS NULL", v, true))
    ensures IsNull(f) && !v.BoolValue? ==> BuildScope(f, v) == Failure(ValueError(BooleanMessage(f)))
    ensures IsEqualStatement(f) || IsNotEqualStatement(f) ==> BuildScope(f, v) == Success(Scope(ColumnName(f) + " = ?", v, false))
  {
    AtMostOneOperator(f);
  }

  /** The two comparison operators check types differently: GTE takes only the
      listed numbers and rejects a time, LTE takes a time as well. */
  lemma ComparisonTypeChecks(f: string, t: int)
    ensures IsGreaterThanEqualStatement(f) ==> BuildScope(f, TimeValue(t)) == Failure(ValueError(NumberOrDateMessage(f)))
    ensures IsGreaterThanEqualStatement(f) ==> BuildScope(f, IntValue(Int16, t)).Failure?
    ensures IsLessThanEqualStatement(f) ==> BuildScope(f, TimeValue(t)) == Success(Scope(ColumnName(f) + " <= ?", TimeValue(t), false))
    ensures IsGreaterThanEqualStatement(f) || IsLessThanEqualStatement(f) ==> BuildScope(f, StringValue("x")).Failure?
  {
    SuffixSelectsTemplate(f, TimeValue(t));
    SuffixSelectsTemplate(f, IntValue(Int16, t));
    SuffixSelectsTemplate(f, StringValue("x"));
  }

  // ---- placeholders and arguments ----

  predicate NoPlaceholder(s: string) {
    forall i :: 0 <= i < |s| ==> s[i] != '?'
  }

  lemma CountLast(pre: string)
    requires NoPlaceholder(pre)
    ensures Count('?', pre + "?") == 1
  {
    var s := pre + "?";
    assert s[..|s| - 1] == pre;
    CountAbsent('?', pre);
  }

  /** A column name adds no placeholder to the text after it. */
  lemma ColumnCount(col: string, after: string)
    requires NoSqlMeta(col)
    ensures Count('?', col + after) == Count('?', after)
  {
    CountAbsent('?', col);
    CountAppend('?', col, after);
  }

  /** Text that ends in a bracketed placeholder holds exactly that one. */
  lemma CountLastBracketed(pre: string)
    requires NoPlaceholder(pre)
    ensures Count('?', pre + "?" + ")") == 1
  {
    CountLast(pre);
    CountAbsent('?', ")");
    CountAppend('?', pre + "?", ")");
  }

  // The placeholders of each template's fixed text.

  lemma LikeTextCount()
    ensures Count('?', "LOWER(") == 0 && Count('?', ") LIKE LOWER(?)") == 1
  {
    CountAbsent('?', "LOWER(");
    CountLastBracketed(") LIKE LOWER(");
    assert ") LIKE LOWER(" + "?" + ")" == ") LIKE LOWER(?)";
  }

  lemma NullTextCount()
    ensures Count('?', " IS NULL") == 0
  {
    CountAbsent('?', " IS NULL");
  }

  lemma LikePlaceholders(f: string, v: Value)
    requires NoSqlMeta(f) && IsLikeStatement(f)
    ensures BuildScope(f, v).Success? && Count('?', BuildScope(f, v).value.query) == 1
  {
    ColumnNameNoMeta(f);
    var col := ColumnName(f);
    LikeScope(f, v, col);
    LikeTextCount();
    ColumnCount(col, ") LIKE LOWER(?)");
    CountAppend('?', "LOWER(", col + ") LIKE LOWER(?)");
    assert "LOWER(" + (col + ") LIKE LOWER(?)") == "LOWER(" + col + ") LIKE LOWER(?)";
  }

  lemma GtePlaceholders(f: string, v: Value)
    requires NoSqlMeta(f) && IsGreaterThanEqualStatement(f) && BuildScope(f, v).Success?
    ensures BuildScope(f, v).Success? && Count('?', BuildScope(f, v).value.query) == 1
  {
    ColumnNameNoMeta(f);
    var col := ColumnName(f);
    GteScope(f, v, col);
    CountLast(" >= ");
    assert " >= " + "?" == " >= ?";
    ColumnCount(col, " >= ?");
  }

  lemma LtePlaceholders(f: string, v: Value)
    requires NoSqlMeta(f) && IsLessThanEqualStatement(f) && BuildScope(f, v).Success?
    ensures BuildScope(f, v).Success? && Count('?', BuildScope(f, v).value.query) == 1
  {
    ColumnNameNoMeta(f);
    var col := ColumnName(f);
    LteScope(f, v, col);
    CountLast(" <= ");
    assert " <= " + "?" == " <= ?";
    ColumnCount(col, " <= ?");
  }

  lemma NotInPlaceholders(f: string, v: Value)
    requires NoSqlMeta(f) && IsNotInStatement(f)
    ensures BuildScope(f, v).Success? && Count('?', BuildScope(f, v).value.query) == 1
  {
    ColumnNameNoMeta(f);
    var col := ColumnName(f);
    NotInScope(f, v, col);
    CountLastBracketed(" NOT IN (");
    assert " NOT IN (" + "?" + ")" == " NOT IN (?)";
    ColumnCount(col, " NOT IN (?)");
  }

  lemma InPlaceholders(f: string, v: Value)
    requires NoSqlMeta(f) && IsInStatement(f)
    ensures BuildScope(f, v).Success? && Count('?', BuildScope(f, v).value.query) == 1
  {
    ColumnNameNoMeta(f);
    var col := ColumnName(f);
    InScope(f, v, col);
    CountLastBracketed(" IN (");
    assert " IN (" + "?" + ")" == " IN (?)";
    ColumnCount(col, " IN (?)");
  }

  lemma EqualityPlaceholders(f: string, v: Value)
    requires NoSqlMeta(f) && (IsEqualStatement(f) || IsNotEqualStatement(f))
    ensures BuildScope(f, v).Success? && Count('?', BuildScope(f, v).value.query) == 1
  {
    ColumnNameNoMeta(f);
    var col := ColumnName(f);
    EqualityScope(f, v, col);
    CountLast(" = ");
    assert " = " + "?" == " = ?";
    ColumnCount(col, " = ?");
  }

  lemma NullPlaceholders(f: string)
    requires NoSqlMeta(f) && IsNull(f)
    ensures BuildScope(f, BoolValue(true)).Success? && BuildScope(f, BoolValue(true)).value.skipArg
    ensures Count('?', BuildScope(f, BoolValue(true)).value.query) == 0
  {
    ColumnNameNoMeta(f);
    var col := ColumnName(f);
    NullScope(f, BoolValue(true), col);
    NullTextCount();
    ColumnCount(col, " IS NULL");
  }

  /** A predicate holds one placeholder exactly when it carries an argument. */
  lemma ScopePlaceholders(f: string, v: Value)
    requires NoSqlMeta(f) && !IsZero(v) && BuildScope(f, v).Success?
    ensures Count('?', BuildScope(f, v).value.query) == (if BuildScope(f, v).value.skipArg then 0 else 1)
  {
    AtMostOneOperator(f);
    if IsLikeStatement(f) {
      LikePlaceholders(f, v);
    } else if IsGreaterThanEqualStatement(f) {
      GtePlaceholders(f, v);
    } else if IsLessThanEqualStatement(f) {
      LtePlaceholders(f, v);
    } else if IsNotInStatement(f) {
      NotInPlaceholders(f, v);
    } else if IsInStatement(f) {
      InPlaceholders(f, v);
    } else if IsNull(f) {
      assert v == BoolValue(true);
      NullPlaceholders(f);
    } else {
      EqualityPlaceholders(f, v);
    }
  }

  /** Adding one predicate to the AND-join adds its placeholders. */
  lemma JoinCount(parts: seq<string>, q: string)
    ensures Count('?', Join(" AND ", parts + [q])) == Count('?', Join(" AND ", parts)) + Count('?', q)
  {
    var ps := parts + [q];
    assert ps[..|ps| - 1] == parts && ps[|ps| - 1] == q;
    if parts != [] {
      CountAbsent('?', " AND ");
      CountAppend('?', Join(" AND ", parts), " AND ");
      CountAppend('?', Join(" AND ", parts) + " AND ", q);
    }
  }

  lemma {:induction false} ScanPlaceholders(fields: seq<Field>)
    requires forall i :: 0 <= i < |fields| ==> NoSqlMeta(fields[i].name)
    requires ScanFields(fields).failure.None?
    ensures Count('?', Join(" AND ", ScanFields(fields).fragments)) == |ScanFields(fields).args|
    decreases |fields|
  {
    if fields != [] {
      var init := fields[..|fields| - 1];
      var f := fields[|fields| - 1];
      var prev := ScanFields(init);
      ScanPlaceholders(init);
      if !IsZero(f.value) {
        var r := BuildScope(f.name, f.value);
        ScopePlaceholders(f.name, f.value);
        JoinCount(prev.fragments, r.value.query);
      }
    }
  }

  /** On success there are exactly as many placeholders as arguments. */
  lemma PlaceholdersMatchArgs(stmt: Stmt)
    requires WellFormed(stmt) && WhereClause(stmt).err.None?
    ensures Count('?', WhereClause(stmt).query) == |WhereClause(stmt).args|
  {
    var fields := stmt.fields;
    forall i | 0 <= i < |fields| ensures NoSqlMeta(fields[i].name) {
      ColumnNameOfIdentifier(fields[i].name);
    }
    ScanPlaceholders(fields);
    var frags := ScanFields(fields).fragments;
    if frags != [] {
      CountAbsent('?', "WHERE ");
      CountAppend('?', "WHERE ", Join(" AND ", frags));
    }
  }

  // ---- the test table of sql_test ----

  // Literal text facts, each proved where no other term can distract the solver.

  lemma WhereFooEquals()
    ensures "WHERE " + ("foo" + " = ?") == "WHERE foo = ?"
  {
  }

  lemma WhereFooLike()
    ensures "WHERE " + ("LOWER(" + "foo" + ") LIKE LOWER(?)") == "WHERE LOWER(foo) LIKE LOWER(?)"
  {
  }

  lemma WhereFooGte()
    ensures "WHERE " + ("foo" + " >= ?") == "WHERE foo >= ?"
  {
  }

  lemma WhereFooLte()
    ensures "WHERE " + ("foo" + " <= ?") == "WHERE foo <= ?"
  {
  }

  lemma WhereFooNotIn()
    ensures "WHERE " + ("foo" + " NOT IN (?)") == "WHERE foo NOT IN (?)"
  {
  }

  lemma WhereFooIn()
    ensures "WHERE " + ("foo" + " IN (?)") == "WHERE foo IN (?)"
  {
  }

  lemma WhereTwo()
    ensures "WHERE " + ("foo" + " = ?") + " AND " + ("bar" + " >= ?") == "WHERE foo = ? AND bar >= ?"
  {
  }

  /** One more non-zero field whose predicate builds, after fields that did. */
  lemma ScanOne(prefix: seq<Field>, f: Field, sc: Scope)
    requires ScanFields(prefix).failure.None?
    requires !IsZero(f.value) && BuildScope(f.name, f.value) == Success(sc)
    ensures ScanFields(prefix + [f]) ==
            Scan(ScanFields(prefix).fragments + [sc.query],
                 ScanFields(prefix).args + (if sc.skipArg then [] else [sc.arg]), None)
  {
    var fs := prefix + [f];
    assert fs[..|fs| - 1] == prefix && fs[|fs| - 1] == f;
  }

  /** A statement with a single non-zero field whose predicate builds. */
  lemma SingleField(name: string, v: Value, sc: Scope)
    requires !IsZero(v) && BuildScope(name, v) == Success(sc)
    ensures WhereClause(Struct([Field(name, v)])) ==
            Built("WHERE " + sc.query, if sc.skipArg then [] else [sc.arg], None)
  {
    assert ScanFields([]) == Scan([], [], None);
    ScanOne([], Field(name, v), sc);
    assert [] + [Field(name, v)] == [Field(name, v)];
    assert Join(" AND ", [sc.query]) == sc.query;
  }

  /** A statement with a single non-zero field whose predicate is rejected. */
  lemma SingleFailure(name: string, v: Value, e: BuildError)
    requires !IsZero(v) && BuildScope(name, v) == Failure(e)
    ensures WhereClause(Struct([Field(name, v)])) == Built("", [], Some(e))
  {
    var fs := [Field(name, v)];
    assert fs[..0] == [];
    assert ScanFields([]) == Scan([], [], None);
    assert ScanFields(fs) == Scan([], [], Some(e));
  }

  /** The slice ["foo", "bar"] the test table filters on. */
  function FooBarSlice(): Value {
    SliceValue([StringValue("foo"), StringValue("bar")])
  }

  lemma ScopeFooInt()
    ensures BuildScope("Foo", IntValue(Int, 1)) == Success(Scope("foo" + " = ?", IntValue(Int, 1), false))
  {
    ClassifiersOfFoo();
    ColumnNameFoo();
    EqualityScope("Foo", IntValue(Int, 1), "foo");
  }

  lemma VectorFooInt()
    ensures WhereClause(Struct([Field("Foo", IntValue(Int, 1))])) == Built("WHERE foo = ?", [IntValue(Int, 1)], None)
  {
    ScopeFooInt();
    SingleField("Foo", IntValue(Int, 1), Scope("foo" + " = ?", IntValue(Int, 1), false));
    WhereFooEquals();
  }

  lemma ScopeFooString()
    ensures BuildScope("Foo", StringValue("Bar")) == Success(Scope("foo" + " = ?", StringValue("Bar"), false))
  {
    ClassifiersOfFoo();
    ColumnNameFoo();
    EqualityScope("Foo", StringValue("Bar"), "foo");
  }

  lemma VectorFooString()
    ensures WhereClause(Struct([Field("Foo", StringValue("Bar"))])) == Built("WHERE foo = ?", [StringValue("Bar")], None)
  {
    ScopeFooString();
    SingleField("Foo", StringValue("Bar"), Scope("foo" + " = ?", StringValue("Bar"), false));
    WhereFooEquals();
  }

  lemma ScopeFooLike()
    ensures BuildScope("FooLike", StringValue("Bar")) == Success(Scope("LOWER(" + "foo" + ") LIKE LOWER(?)", StringValue("Bar"), false))
  {
    ClassifiersOfFooLike();
    ColumnNameFooLike();
    LikeScope("FooLike", StringValue("Bar"), "foo");
  }

  lemma VectorFooLike()
    ensures WhereClause(Struct([Field("FooLike", StringValue("Bar"))])) == Built("WHERE LOWER(foo) LIKE LOWER(?)", [StringValue("Bar")], None)
  {
    ScopeFooLike();
    SingleField("FooLike", StringValue("Bar"), Scope("LOWER(" + "foo" + ") LIKE LOWER(?)", StringValue("Bar"), false));
    WhereFooLike();
  }

  lemma ScopeFooGteString()
    ensures BuildScope("FooGTE", StringValue("Bar")) == Failure(ValueError(NumberOrDateMessage("FooGTE")))
  {
    ClassifiersOfFooGTE();
    ColumnNameFooGTE();
    GteScope("FooGTE", StringValue("Bar"), "foo");
  }

  lemma VectorFooGteString()
    ensures WhereClause(Struct([Field("FooGTE", StringValue("Bar"))])) == Built("", [], Some(ValueError(NumberOrDateMessage("FooGTE"))))
  {
    ScopeFooGteString();
    SingleFailure("FooGTE", StringValue("Bar"), ValueError(NumberOrDateMessage("FooGTE")));
  }

  lemma ScopeFooGteInt()
    ensures BuildScope("FooGTE", IntValue(Int, 1)) == Success(Scope("foo" + " >= ?", IntValue(Int, 1), false))
  {
    ClassifiersOfFooGTE();
    ColumnNameFooGTE();
    GteScope("FooGTE", IntValue(Int, 1), "foo");
  }

  lemma VectorFooGteInt()
    ensures WhereClause(Struct([Field("FooGTE", IntValue(Int, 1))])) == Built("WHERE foo >= ?", [IntValue(Int, 1)], None)
  {
    ScopeFooGteInt();
    SingleField("FooGTE", IntValue(Int, 1), Scope("foo" + " >= ?", IntValue(Int, 1), false));
    WhereFooGte();
  }

  lemma ScopeFooLteString()
    ensures BuildScope("FooLTE", StringValue("Bar")) == Failure(ValueError(NumberOrDateMessage("FooLTE")))
  {
    ClassifiersOfFooLTE();
    ColumnNameFooLTE();
    LteScope("FooLTE", StringValue("Bar"), "foo");
  }

  lemma VectorFooLteString()
    ensures WhereClause(Struct([Field("FooLTE", StringValue("Bar"))])) == Built("", [], Some(ValueError(NumberOrDateMessage("FooLTE"))))
  {
    ScopeFooLteString();
    SingleFailure("FooLTE", StringValue("Bar"), ValueError(NumberOrDateMessage("FooLTE")));
  }

  lemma ScopeFooLteInt()
    ensures BuildScope("FooLTE", IntValue(Int, 1)) == Success(Scope("foo" + " <= ?", IntValue(Int, 1), false))
  {
    ClassifiersOfFooLTE();
    ColumnNameFooLTE();
    LteScope("FooLTE", IntValue(Int, 1), "foo");
  }

  lemma VectorFooLteInt()
    ensures WhereClause(Struct([Field("FooLTE", IntValue(Int, 1))])) == Built("WHERE foo <= ?", [IntValue(Int, 1)], None)
  {
    ScopeFooLteInt();
    SingleField("FooLTE", IntValue(Int, 1), Scope("foo" + " <= ?", IntValue(Int, 1), false));
    WhereFooLte();
  }

  lemma ScopeFooNotInInt()
    ensures BuildScope("FooNotIN", IntValue(Int, 1)) == Success(Scope("foo" + " NOT IN (?)", IntValue(Int, 1), false))
  {
    ClassifiersOfFooNotIN();
    ColumnNameFooNotIN();
    NotInScope("FooNotIN", IntValue(Int, 1), "foo");
  }

  lemma VectorFooNotInInt()
    ensures WhereClause(Struct([Field("FooNotIN", IntValue(Int, 1))])) == Built("WHERE foo NOT IN (?)", [IntValue(Int, 1)], None)
  {
    ScopeFooNotInInt();
    SingleField("FooNotIN", IntValue(Int, 1), Scope("foo" + " NOT IN (?)", IntValue(Int, 1), false));
    WhereFooNotIn();
  }

  lemma ScopeFooNotInSlice()
    ensures BuildScope("FooNotIN", FooBarSlice()) == Success(Scope("foo" + " NOT IN (?)", FooBarSlice(), false))
  {
    ClassifiersOfFooNotIN();
    ColumnNameFooNotIN();
    NotInScope("FooNotIN", FooBarSlice(), "foo");
  }

  lemma VectorFooNotInSlice()
    ensures WhereClause(Struct([Field("FooNotIN", FooBarSlice())])) == Built("WHERE foo NOT IN (?)", [FooBarSlice()], None)
  {
    ScopeFooNotInSlice();
    SingleField("FooNotIN", FooBarSlice(), Scope("foo" + " NOT IN (?)", FooBarSlice(), false));
    WhereFooNotIn();
  }

  lemma ScopeFooInSlice()
    ensures BuildScope("FooIN", FooBarSlice()) == Success(Scope("foo" + " IN (?)", FooBarSlice(), false))
  {
    ClassifiersOfFooIN();
    ColumnNameFooIN();
    InScope("FooIN", FooBarSlice(), "foo");
  }

  lemma VectorFooInSlice()
    ensures WhereClause(Struct([Field("FooIN", FooBarSlice())])) == Built("WHERE foo IN (?)", [FooBarSlice()], None)
  {
    ScopeFooInSlice();
    SingleField("FooIN", FooBarSlice(), Scope("foo" + " IN (?)", FooBarSlice(), false));
    WhereFooIn();
  }

  lemma VectorFooInNil()
    ensures WhereClause(Struct([Field("FooIN", NilSlice)])) == Built("", [], None)
  {
    AllZeroGivesEmpty([Field("FooIN", NilSlice)]);
  }

  lemma ClassifiersOfBarGTE()
    ensures IsGreaterThanEqualStatement("BarGTE")
  {
    var f := "BarGTE";
    assert HasSuffix(f, "GTE");
  }

  lemma ScopeFooFoo()
    ensures BuildScope("Foo", StringValue("foo")) == Success(Scope("foo" + " = ?", StringValue("foo"), false))
  {
    ClassifiersOfFoo();
    ColumnNameFoo();
    EqualityScope("Foo", StringValue("foo"), "foo");
  }

  lemma ScopeBarGteInt()
    ensures BuildScope("BarGTE", IntValue(Int, 1)) == Success(Scope("bar" + " >= ?", IntValue(Int, 1), false))
  {
    ClassifiersOfBarGTE();
    ColumnNameBarGTE();
    GteScope("BarGTE", IntValue(Int, 1), "bar");
  }

  lemma VectorTwoFields()
    ensures WhereClause(Struct([Field("Foo", StringValue("foo")), Field("BarGTE", IntValue(Int, 1))])) ==
            Built("WHERE foo = ? AND bar >= ?", [StringValue("foo"), IntValue(Int, 1)], None)
  {
    ScopeFooFoo();
    ScopeBarGteInt();
    TwoFields(Field("Foo", StringValue("foo")), Field("BarGTE", IntValue(Int, 1)),
              Scope("foo" + " = ?", StringValue("foo"), false), Scope("bar" + " >= ?", IntValue(Int, 1), false));
    WhereTwo();
  }

  /** Two non-zero fields whose predicates both build. */
  lemma TwoFields(f1: Field, f2: Field, s1: Scope, s2: Scope)
    requires !IsZero(f1.value) && BuildScope(f1.name, f1.value) == Success(s1) && !s1.skipArg
    requires !IsZero(f2.value) && BuildScope(f2.name, f2.value) == Success(s2) && !s2.skipArg
    ensures WhereClause(Struct([f1, f2])) == Built("WHERE " + s1.query + " AND " + s2.query, [s1.arg, s2.arg], None)
  {
    TwoScans(f1, f2, s1, s2);
    JoinTwo(s1.query, s2.query);
  }

  lemma JoinTwo(a: string, b: string)
    ensures Join(" AND ", [a, b]) == a + " AND " + b
  {
    assert [a, b][..1] == [a];
  }

  lemma TwoScans(f1: Field, f2: Field, s1: Scope, s2: Scope)
    requires !IsZero(f1.value) && BuildScope(f1.name, f1.value) == Success(s1) && !s1.skipArg
    requires !IsZero(f2.value) && BuildScope(f2.name, f2.value) == Success(s2) && !s2.skipArg
    ensures ScanFields([f1, f2]) == Scan([s1.query, s2.query], [s1.arg, s2.arg], None)
  {
    assert ScanFields([]) == Scan([], [], None);
    ScanOne([], f1, s1);
    assert [] + [f1] == [f1];
    ScanOne([f1], f2, s2);
    assert [f1] + [f2] == [f1, f2];
  }

  /** The twelve rows of sql_test's TestCondition. */
  lemma ConditionVectors()
    ensures WhereClause(Struct([Field("Foo", IntValue(Int, 1))])) == Built("WHERE foo = ?", [IntValue(Int, 1)], None)
    ensures WhereClause(Struct([Field("Foo", StringValue("Bar"))])) == Built("WHERE foo = ?", [StringValue("Bar")], None)
    ensures WhereClause(Struct([Field("FooLike", StringValue("Bar"))])) ==
            Built("WHERE LOWER(foo) LIKE LOWER(?)", [StringValue("Bar")], None)
    ensures WhereClause(Struct([Field("FooGTE", StringValue("Bar"))])) ==
            Built("", [], Some(ValueError(NumberOrDateMessage("FooGTE"))))
    ensures WhereClause(Struct([Field("FooGTE", IntValue(Int, 1))])) == Built("WHERE foo >= ?", [IntValue(Int, 1)], None)
    ensures WhereClause(Struct([Field("FooLTE", StringValue("Bar"))])) ==
            Built("", [], Some(ValueError(NumberOrDateMessage("FooLTE"))))
    ensures WhereClause(Struct([Field("FooLTE", IntValue(Int, 1))])) == Built("WHERE foo <= ?", [IntValue(Int, 1)], None)
    ensures WhereClause(Struct([Field("FooNotIN", IntValue(Int, 1))])) == Built("WHERE foo NOT IN (?)", [IntValue(Int, 1)], None)
    ensures WhereClause(Struct([Field("FooNotIN", FooBarSlice())])) == Built("WHERE foo NOT IN (?)", [FooBarSlice()], None)
    ensures WhereClause(Struct([Field("FooIN", FooBarSlice())])) == Built("WHERE foo IN (?)", [FooBarSlice()], None)
    ensures WhereClause(Struct([Field("FooIN", NilSlice)])) == Built("", [], None)
    ensures WhereClause(Struct([Field("Foo", StringValue("foo")), Field("BarGTE", IntValue(Int, 1))])) ==
            Built("WHERE foo = ? AND bar >= ?", [StringValue("foo"), IntValue(Int, 1)], None)
  {
    VectorFooInt();
    VectorFooString();
    VectorFooLike();
    VectorFooGteString();
    VectorFooGteInt();
    VectorFooLteString();
    VectorFooLteInt();
    VectorFooNotInInt();
    VectorFooNotInSlice();
    VectorFooInSlice();
    VectorFooInNil();
    VectorTwoFields();
  }

  // ---- consequences for the accounting statements ----

  lemma ClassifiersOfClosedNotEQ()
    ensures IsNotEqualStatement("ClosedNotEQ")
  {
    var f := "ClosedNotEQ";
    assert HasSuffix(f, "NotEQ");
  }

  lemma ScopeClosedNotEq()
    ensures BuildScope("ClosedNotEQ", BoolValue(true)) == Success(Scope("closed" + " = ?", BoolValue(true), false))
  {
    ClassifiersOfClosedNotEQ();
    ColumnNameClosedNotEQ();
    EqualityScope("ClosedNotEQ", BoolValue(true), "closed");
  }

  lemma WhereClosedEquals()
    ensures "WHERE " + ("closed" + " = ?") == "WHERE closed = ?"
  {
  }

  /** A fiscal-year filter with ClosedNotEQ set selects the rows EQUAL to the
      value: the NotEQ suffix reaches the equality template. */
  lemma ClosedNotEqIsEquality()
    ensures WhereClause(Struct([Field("ClosedNotEQ", BoolValue(true))])) ==
            Built("WHERE closed = ?", [BoolValue(true)], None)
  {
    ScopeClosedNotEq();
    SingleField("ClosedNotEQ", BoolValue(true), Scope("closed" + " = ?", BoolValue(true), false));
    WhereClosedEquals();
  }

  lemma ClassifiersOfStartDateGTE()
    ensures IsGreaterThanEqualStatement("StartDateGTE")
  {
    var f := "StartDateGTE";
    assert HasSuffix(f, "GTE");
  }

  lemma ScopeStartDateGte(t: int)
    ensures BuildScope("StartDateGTE", TimeValue(t)) == Failure(ValueError(NumberOrDateMessage("StartDateGTE")))
  {
    ClassifiersOfStartDateGTE();
    GteScope("StartDateGTE", TimeValue(t), ColumnName("StartDateGTE"));
  }

  /** A fiscal-year filter with a time in StartDateGTE is rejected, since
      the GTE case does not list time values. */
  lemma StartDateGteRejected(t: int)
    requires t != 0
    ensures WhereClause(Struct([Field("StartDateGTE", TimeValue(t))])) ==
            Built("", [], Some(ValueError(NumberOrDateMessage("StartDateGTE"))))
  {
    ScopeStartDateGte(t);
    SingleFailure("StartDateGTE", TimeValue(t), ValueError(NumberOrDateMessage("StartDateGTE")));
  }
}
