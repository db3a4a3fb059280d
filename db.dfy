/** The UPDATE and DELETE helpers of the database wrapper: they assemble a
    statement around the WHERE builder and hand it to ExecContext. Execution
    itself is outside the model; the statement that would be executed is
    the result. */
module Db {
  import opened Wrappers
  import opened Text
  import opened FieldStrategy
  import opened Condition
  import ConditionLemmas

  /** The query and arguments passed to ExecContext. */
  datatype Exec = Exec(query: string, args: seq<Value>)

  /** The errors Delete and Updates return: the nil-statement error renamed,
      or any other builder error passed on unchanged. */
  datatype DbError = ErrWhereStructNil | WhereFailed(cause: BuildError)

  function ReportedError(e: BuildError): (r: DbError)
    ensures r == ErrWhereStructNil <==> e == ErrStmtNil
    ensures r.WhereFailed? ==> r.cause == e
  {
    if e == ErrStmtNil then ErrWhereStructNil else WhereFailed(e)
  }

  /** One entry of the update's value struct or map, in iteration order. */
  datatype Column = Column(key: string, value: Value)

  /** The columns' names, in iteration order. */
  function ColumnNames(columns: seq<Column>): (r: seq<string>)
    ensures |r| == |columns|
    decreases |columns|
  {
    if columns == [] then []
    else ColumnNames(columns[..|columns| - 1]) + [ColumnName(columns[|columns| - 1].key)]
  }

  /** Each name assigned a placeholder. */
  function Assigned(names: seq<string>): (r: seq<string>)
    ensures |r| == |names|
    decreases |names|
  {
    if names == [] then [] else Assigned(names[..|names| - 1]) + [names[|names| - 1] + " = ?"]
  }

  /** A SET clause over column names: the assignments separated by commas. */
  function SetText(names: seq<string>): (r: string) {
    if names == [] then "" else "SET " + Join(", ", Assigned(names))
  }

  /** The SET clause over the columns' names; empty exactly when there are no columns. */
  function SetClause(columns: seq<Column>): (r: string)
    ensures r == "" <==> columns == []
  {
    SetTextEmpty(ColumnNames(columns));
    SetText(ColumnNames(columns))
  }

  function SetArgs(columns: seq<Column>): (r: seq<Value>)
    ensures |r| == |columns|
    decreases |columns|
  {
    if columns == [] then [] else SetArgs(columns[..|columns| - 1]) + [columns[|columns| - 1].value]
  }

  /** What Delete executes for the builder's result `b`, or why it executes nothing. */
  function DeleteStatement(tableName: string, b: Built): (r: Result<Exec, DbError>)
    ensures r.Failure? <==> b.err.Some?
    ensures r.Failure? ==> (r.error == ErrWhereStructNil <==> b.err == Some(ErrStmtNil))
    ensures r.Success? ==> r.value.args == b.args
  {
    if b.err.Some? then Failure(ReportedError(b.err.value))
    else Success(Exec("DELETE FROM " + tableName + " " + b.query, b.args))
  }

  /** What Updates executes: the SET arguments come before the WHERE arguments. */
  function UpdateStatement(tableName: string, dest: seq<Column>, b: Built): (r: Result<Exec, DbError>)
    ensures r.Failure? <==> b.err.Some?
    ensures r.Failure? ==> (r.error == ErrWhereStructNil <==> b.err == Some(ErrStmtNil))
    ensures r.Success? ==> |r.value.args| == |dest| + |b.args| && r.value.args[|dest|..] == b.args
    ensures r.Success? ==> forall i :: 0 <= i < |dest| ==> r.value.args[i] == dest[i].value
  {
    SetArgsAt(dest);
    if b.err.Some? then Failure(ReportedError(b.err.value))
    else Success(Exec("UPDATE " + tableName + " " + SetClause(dest) + " " + b.query, SetArgs(dest) + b.args))
  }

  method Delete(tableName: string, whereStruct: Stmt) returns (r: Result<Exec, DbError>)
    requires WellFormed(whereStruct)
    ensures r == DeleteStatement(tableName, WhereClause(whereStruct))
  {
    var whereClause, whereClauseArgs, err := NewWhereClause(whereStruct);
    if err.Some? {
      if err.value == ErrStmtNil {
        return Failure(ErrWhereStructNil);
      }
      return Failure(WhereFailed(err.value));
    }
    var query := "DELETE FROM " + tableName + " " + whereClause;
    return Success(Exec(query, whereClauseArgs));
  }

  /** The iteration over the update's values: the first column starts the
      clause with SET, each later one adds a comma and its assignment, and
      every value becomes one argument. */
  method BuildSetClause(dest: seq<Column>) returns (setClause: string, setClauseArgs: seq<Value>)
    ensures setClause == SetClause(dest)
    ensures setClauseArgs == SetArgs(dest)
  {
    setClause, setClauseArgs := "", [];
    for i := 0 to |dest|
      invariant setClause == SetClause(dest[..i])
      invariant setClauseArgs == SetArgs(dest[..i])
    {
      var columnName := ColumnName(dest[i].key);
      SetClauseStep(dest, i);
      if setClause == "" {
        setClause := setClause + ("SET " + columnName + " = ?");
      } else {
        setClause := setClause + (", " + columnName + " = ?");
      }
      setClauseArgs := setClauseArgs + [dest[i].value];
    }
    assert dest[..|dest|] == dest;
  }

  /** One step of the iteration, stated on the prefix it has consumed. */
  lemma SetClauseStep(dest: seq<Column>, i: nat)
    requires i < |dest|
    ensures var n := ColumnName(dest[i].key);
            SetClause(dest[..i + 1]) ==
            SetClause(dest[..i]) + (if SetClause(dest[..i]) == "" then "SET " + n + " = ?" else ", " + n + " = ?")
    ensures SetArgs(dest[..i + 1]) == SetArgs(dest[..i]) + [dest[i].value]
  {
    assert dest[..i + 1] == dest[..i] + [dest[i]];
    ColumnNamesAppend(dest[..i], dest[i]);
    SetArgsAppend(dest[..i], dest[i]);
    SetTextStep(ColumnNames(dest[..i]), ColumnName(dest[i].key));
  }

  /** Updates builds the SET clause from `dest`, then the WHERE clause. The
      error the iteration over `dest` may report, `iterationError`, is
      overwritten by the builder's result and never returned. */
  method Updates(tableName: string, dest: seq<Column>, iterationError: Option<string>, whereStruct: Stmt)
    returns (r: Result<Exec, DbError>)
    requires WellFormed(whereStruct)
    ensures r == UpdateStatement(tableName, dest, WhereClause(whereStruct))
  {
    var setClause, setClauseArgs := BuildSetClause(dest);
    var whereClause, whereClauseArgs, err := NewWhereClause(whereStruct);
    if err.Some? {
      if err.value == ErrStmtNil {
        return Failure(ErrWhereStructNil);
      }
      return Failure(WhereFailed(err.value));
    }
    var query := "UPDATE " + tableName + " " + setClause + " " + whereClause;
    return Success(Exec(query, setClauseArgs + whereClauseArgs));
  }

  /** The loop's step, for the text it has built so far. */
  lemma SetTextStep(names: seq<string>, n: string)
    ensures SetText(names) == "" ==> SetText(names + [n]) == SetText(names) + ("SET " + n + " = ?")
    ensures SetText(names) != "" ==> SetText(names + [n]) == SetText(names) + (", " + n + " = ?")
  {
    var a := n + " = ?";
    var all := names + [n];
    assert all[..|all| - 1] == names;
    assert Assigned(all) == Assigned(names) + [a];
    JoinAppend(", ", Assigned(names), a);
    if names != [] {
      var j := Join(", ", Assigned(names));
      assert SetText(all) == "SET " + (j + ", " + a);
      assert "SET " + (j + ", " + a) == ("SET " + j) + (", " + n + " = ?");
    }
  }

  lemma SetTextEmpty(names: seq<string>)
    ensures SetText(names) == "" <==> names == []
  {
  }

  /** One more name adds its assignment after a comma, or starts the clause. */
  lemma SetTextAppend(names: seq<string>, n: string)
    ensures SetText(names + [n]) ==
            if names == [] then "SET " + n + " = ?" else SetText(names) + ", " + n + " = ?"
  {
    var all := names + [n];
    assert all[..|all| - 1] == names;
    var a := n + " = ?";
    var before := Assigned(names);
    assert Assigned(all) == before + [a];
    JoinAppend(", ", before, a);
  }

  lemma ColumnNamesAppend(columns: seq<Column>, c: Column)
    ensures ColumnNames(columns + [c]) == ColumnNames(columns) + [ColumnName(c.key)]
  {
    var all := columns + [c];
    assert all[..|all| - 1] == columns;
  }

  lemma SetArgsAppend(columns: seq<Column>, c: Column)
    ensures SetArgs(columns + [c]) == SetArgs(columns) + [c.value]
  {
    var all := columns + [c];
    assert all[..|all| - 1] == columns;
  }

  lemma JoinAppend(sep: string, parts: seq<string>, q: string)
    ensures Join(sep, parts + [q]) == if parts == [] then q else Join(sep, parts) + sep + q
  {
    var all := parts + [q];
    assert all[..|all| - 1] == parts;
  }

  // ---- properties of the two statements ----

  /** A nil filter is reported as ErrWhereStructNil and nothing is executed. */
  lemma NilFilterReported(tableName: string, dest: seq<Column>)
    ensures DeleteStatement(tableName, WhereClause(NilPointer)) == Failure(ErrWhereStructNil)
    ensures UpdateStatement(tableName, dest, WhereClause(NilPointer)) == Failure(ErrWhereStructNil)
  {
  }

  /** Any other builder error is a value error, returned as it is, and
      nothing is executed. */
  lemma BuilderErrorPassedOn(tableName: string, dest: seq<Column>, fields: seq<Field>)
    requires WhereClause(Struct(fields)).err.Some?
    ensures var e := WhereClause(Struct(fields)).err.value;
            e.ValueError? &&
            DeleteStatement(tableName, WhereClause(Struct(fields))) == Failure(WhereFailed(e)) &&
            UpdateStatement(tableName, dest, WhereClause(Struct(fields))) == Failure(WhereFailed(e))
  {
    ScanFailureIsValueError(fields);
  }

  lemma {:induction false} ScanFailureIsValueError(fields: seq<Field>)
    requires ScanFields(fields).failure.Some?
    ensures ScanFields(fields).failure.value.ValueError?
    decreases |fields|
  {
    if fields != [] {
      var init := fields[..|fields| - 1];
      if ScanFields(init).failure.Some? {
        ScanFailureIsValueError(init);
      } else {
        var f := fields[|fields| - 1];
        BuildScopeErrors(f.name, f.value);
      }
    }
  }

  lemma BuildScopeErrors(field: string, value: Value)
    requires BuildScope(field, value).Failure?
    ensures BuildScope(field, value).error.ValueError?
  {
  }

  /** A filter whose fields are all zero deletes every row of the table. */
  lemma EmptyFilterDeletesAll(tableName: string, fields: seq<Field>)
    requires forall k :: 0 <= k < |fields| ==> IsZero(fields[k].value)
    ensures DeleteStatement(tableName, WhereClause(Struct(fields))) == Success(Exec("DELETE FROM " + tableName + " ", []))
  {
    ConditionLemmas.AllZeroGivesEmpty(fields);
    assert "DELETE FROM " + tableName + " " + "" == "DELETE FROM " + tableName + " ";
  }

  /** A SET clause has one placeholder per name. */
  lemma {:induction false} SetTextPlaceholders(names: seq<string>)
    requires forall i :: 0 <= i < |names| ==> NoSqlMeta(names[i])
    ensures Count('?', SetText(names)) == |names|
    decreases |names|
  {
    if names != [] {
      var init := names[..|names| - 1];
      var n := names[|names| - 1];
      assert init + [n] == names;
      SetTextPlaceholders(init);
      SetTextAppend(init, n);
      var tail := n + " = ?";
      AssignmentCount(n);
      if init == [] {
        CountAbsent('?', "SET ");
        CountAppend('?', "SET ", tail);
        assert "SET " + n + " = ?" == "SET " + tail;
      } else {
        CountAbsent('?', ", ");
        CountAppend('?', SetText(init), ", ");
        CountAppend('?', SetText(init) + ", ", tail);
        assert SetText(init) + ", " + n + " = ?" == SetText(init) + ", " + tail;
      }
    }
  }

  lemma {:induction false} ColumnNamesNoMeta(columns: seq<Column>)
    requires forall i :: 0 <= i < |columns| ==> NoSqlMeta(columns[i].key)
    ensures forall i :: 0 <= i < |columns| ==> NoSqlMeta(ColumnNames(columns)[i])
    decreases |columns|
  {
    if columns != [] {
      var init := columns[..|columns| - 1];
      var c := columns[|columns| - 1];
      assert init + [c] == columns;
      ColumnNamesNoMeta(init);
      ColumnNamesAppend(init, c);
      ColumnNameNoMeta(c.key);
    }
  }

  lemma {:induction false} SetArgsAt(columns: seq<Column>)
    ensures forall i :: 0 <= i < |columns| ==> SetArgs(columns)[i] == columns[i].value
    decreases |columns|
  {
    if columns != [] {
      var init := columns[..|columns| - 1];
      var c := columns[|columns| - 1];
      assert init + [c] == columns;
      SetArgsAt(init);
      SetArgsAppend(init, c);
    }
  }

  /** The SET clause has one placeholder and one argument per column, the
      arguments being the columns' values in order. */
  lemma SetPlaceholders(columns: seq<Column>)
    requires forall i :: 0 <= i < |columns| ==> NoSqlMeta(columns[i].key)
    ensures Count('?', SetClause(columns)) == |SetArgs(columns)|
    ensures forall i :: 0 <= i < |columns| ==> SetArgs(columns)[i] == columns[i].value
  {
    ColumnNamesNoMeta(columns);
    SetTextPlaceholders(ColumnNames(columns));
    SetArgsAt(columns);
  }

  lemma AssignmentCount(col: string)
    requires NoSqlMeta(col)
    ensures Count('?', col + " = ?") == 1
  {
    ConditionLemmas.ColumnCount(col, " = ?");
    ConditionLemmas.CountLast(" = ");
    assert " = " + "?" == " = ?";
  }

  /** A DELETE around a WHERE clause whose placeholders match its arguments
      keeps them matched. */
  lemma DeleteKeepsPlaceholders(tableName: string, b: Built)
    requires NoSqlMeta(tableName) && b.err.None? && Count('?', b.query) == |b.args|
    ensures DeleteStatement(tableName, b).Success?
    ensures var e := DeleteStatement(tableName, b).value; Count('?', e.query) == |e.args|
  {
    var tail := " " + b.query;
    ConditionLemmas.ColumnCount(tableName, tail);
    CountAbsent('?', "DELETE FROM ");
    CountAbsent('?', " ");
    CountAppend('?', "DELETE FROM ", tableName + tail);
    CountAppend('?', " ", b.query);
    assert "DELETE FROM " + tableName + " " + b.query == "DELETE FROM " + (tableName + tail);
  }

  /** The same for an UPDATE, whose SET placeholders take the first |dest|
      arguments. */
  lemma UpdateKeepsPlaceholders(tableName: string, dest: seq<Column>, b: Built)
    requires NoSqlMeta(tableName) && b.err.None? && Count('?', b.query) == |b.args|
    requires forall i :: 0 <= i < |dest| ==> NoSqlMeta(dest[i].key)
    ensures UpdateStatement(tableName, dest, b).Success?
    ensures var e := UpdateStatement(tableName, dest, b).value;
            Count('?', e.query) == |e.args| && e.args[..|dest|] == SetArgs(dest) && e.args[|dest|..] == b.args
  {
    SetPlaceholders(dest);
    UpdateTextCount(tableName, SetClause(dest), b.query);
    assert (SetArgs(dest) + b.args)[..|dest|] == SetArgs(dest);
    assert (SetArgs(dest) + b.args)[|dest|..] == b.args;
  }

  /** The fixed words and the table name of an UPDATE hold no placeholder. */
  lemma UpdateTextCount(tableName: string, setText: string, where: string)
    requires NoSqlMeta(tableName)
    ensures Count('?', "UPDATE " + tableName + " " + setText + " " + where) == Count('?', setText) + Count('?', where)
  {
    var whereTail := " " + where;
    var setTail := setText + whereTail;
    var rest := " " + setTail;
    ConditionLemmas.ColumnCount(tableName, rest);
    CountAbsent('?', "UPDATE ");
    CountAbsent('?', " ");
    CountAppend('?', "UPDATE ", tableName + rest);
    CountAppend('?', " ", setTail);
    CountAppend('?', setText, whereTail);
    CountAppend('?', " ", where);
    assert "UPDATE " + tableName + " " + setText + " " + where == "UPDATE " + (tableName + rest);
  }

  /** Every placeholder of an executed DELETE has its argument. */
  lemma DeletePlaceholders(tableName: string, whereStruct: Stmt)
    requires NoSqlMeta(tableName) && WellFormed(whereStruct) && WhereClause(whereStruct).err.None?
    ensures DeleteStatement(tableName, WhereClause(whereStruct)).Success?
    ensures var e := DeleteStatement(tableName, WhereClause(whereStruct)).value; Count('?', e.query) == |e.args|
  {
    ConditionLemmas.PlaceholdersMatchArgs(whereStruct);
    DeleteKeepsPlaceholders(tableName, WhereClause(whereStruct));
  }

  /** Every placeholder of an executed UPDATE has its argument. */
  lemma UpdatePlaceholders(tableName: string, dest: seq<Column>, whereStruct: Stmt)
    requires NoSqlMeta(tableName) && WellFormed(whereStruct) && WhereClause(whereStruct).err.None?
    requires forall i :: 0 <= i < |dest| ==> NoSqlMeta(dest[i].key)
    ensures UpdateStatement(tableName, dest, WhereClause(whereStruct)).Success?
    ensures var e := UpdateStatement(tableName, dest, WhereClause(whereStruct)).value; Count('?', e.query) == |e.args|
  {
    ConditionLemmas.PlaceholdersMatchArgs(whereStruct);
    UpdateKeepsPlaceholders(tableName, dest, WhereClause(whereStruct));
  }
}
