/** The struct-to-WHERE-clause translator: each non-zero field of a filter
    statement becomes one predicate chosen by its name's suffix; predicates
    are joined with AND and the arguments are collected in the same order. */
module Condition {
  import opened Wrappers
  import opened Text
  import opened FieldStrategy

  /** Go's integer and float kinds as the type switch in BuildScope sees them. */
  datatype IntKind = Int | Int8 | Int16 | Int32 | Int64 | Uint | Uint8 | Uint16 | Uint32 | Uint64
  datatype FloatKind = Float32 | Float64

  /** A field value, tagged by its dynamic kind. A time is an instant in which
      0 stands for Go's zero time; a slice is non-nil even when empty. */
  datatype Value =
    | IntValue(intKind: IntKind, n: int)
    | FloatValue(floatKind: FloatKind, x: real)
    | StringValue(s: string)
    | BoolValue(b: bool)
    | TimeValue(instant: int)
    | SliceValue(elems: seq<Value>)
    | NilSlice

  /** reflect.Value.IsZero */
  predicate IsZero(v: Value) {
    match v
    case IntValue(_, n) => n == 0
    case FloatValue(_, x) => x == 0.0
    case StringValue(s) => s == ""
    case BoolValue(b) => !b
    case TimeValue(t) => t == 0
    case SliceValue(_) => false
    case NilSlice => true
  }

  /** The numeric types the comparison cases list: every integer and float
      kind except int16 and uint16, which the switches leave out. */
  predicate IsListedNumber(v: Value) {
    match v
    case IntValue(k, _) => k != Int16 && k != Uint16
    case FloatValue(_, _) => true
    case _ => false
  }

  datatype Field = Field(name: string, value: Value)

  /** A filter statement: a nil pointer, or a struct's fields in declaration order. */
  datatype Stmt = NilPointer | Struct(fields: seq<Field>)

  /** Struct fields the builder can read are exported. */
  predicate WellFormed(stmt: Stmt) {
    stmt.Struct? ==> forall i :: 0 <= i < |stmt.fields| ==> ExportedIdentifier(stmt.fields[i].name)
  }

  datatype BuildError = ErrStmtNil | ValueError(message: string)

  /** One predicate, its argument, and whether the argument is left out. */
  datatype Scope = Scope(query: string, arg: Value, skipArg: bool)

  function NumberOrDateMessage(field: string): string {
    "statement " + field + " value must be a number or date"
  }

  function BooleanMessage(field: string): string {
    "statement " + field + " value must be a boolean"
  }

  /** buildScope: the predicate for one field, chosen by the first classifier
      that holds in the order Like, GTE, LTE, NotIN, IN, IsNULL. */
  function BuildScope(field: string, value: Value): (r: Result<Scope, BuildError>)
    ensures r.Success? ==> r.value.arg == value
    ensures r.Success? && r.value.skipArg ==> IsNull(field) && value == BoolValue(true)
    ensures r.Failure? ==> r.error.ValueError?
  {
    var col := ColumnName(field);
    if IsLikeStatement(field) then
      Success(Scope("LOWER(" + col + ") LIKE LOWER(?)", value, false))
    else if IsGreaterThanEqualStatement(field) then
      if IsListedNumber(value) then Success(Scope(col + " >= ?", value, false))
      else Failure(ValueError(NumberOrDateMessage(field)))
    else if IsLessThanEqualStatement(field) then
      if IsListedNumber(value) || value.TimeValue? then Success(Scope(col + " <= ?", value, false))
      else Failure(ValueError(NumberOrDateMessage(field)))
    else if IsNotInStatement(field) then
      Success(Scope(col + " NOT IN (?)", value, false))
    else if IsInStatement(field) then
      Success(Scope(col + " IN (?)", value, false))
    else if IsNull(field) then
      match value
      case BoolValue(b) =>
        if b then Success(Scope(col + " IS NULL", value, true)) else Success(Scope("", value, false))
      case _ => Failure(ValueError(BooleanMessage(field)))
    else
      Success(Scope(col + " = ?", value, false))
  }

  /** What the loop over the fields has gathered: the predicates, the
      arguments, and the error that stopped it, if one did. */
  datatype Scan = Scan(fragments: seq<string>, args: seq<Value>, failure: Option<BuildError>)

  /** The fold the loop performs, stated on a prefix of the fields. */
  function ScanFields(fields: seq<Field>): (r: Scan)
    ensures |r.args| <= |r.fragments| <= |fields|
    ensures r.failure.Some? ==> r.failure.value.ValueError?
    decreases |fields|
  {
    if fields == [] then Scan([], [], None)
    else
      var prev := ScanFields(fields[..|fields| - 1]);
      var f := fields[|fields| - 1];
      if prev.failure.Some? || IsZero(f.value) then prev
      else match BuildScope(f.name, f.value)
        case Failure(e) => Scan(prev.fragments, prev.args, Some(e))
        case Success(s) =>
          Scan(prev.fragments + [s.query], prev.args + (if s.skipArg then [] else [s.arg]), None)
  }

  /** The query text before the final trim: every predicate followed by a
      blank, the later ones preceded by "AND ". */
  function Accumulated(fragments: seq<string>): (r: string) {
    if fragments == [] then "" else Join(" AND ", fragments) + " "
  }

  function WhereText(fragments: seq<string>): (r: string) {
    if fragments == [] then "" else "WHERE " + Join(" AND ", fragments)
  }

  /** BuildQuery's three results: query, args, err. On an error the query and
      args are what had been gathered before the failing field. */
  datatype Built = Built(query: string, args: seq<Value>, err: Option<BuildError>)

  function WhereClause(stmt: Stmt): (r: Built)
    ensures r.err == Some(ErrStmtNil) <==> stmt.NilPointer?
    ensures r.err.None? && r.query != "" ==> |r.query| >= 6 && r.query[..6] == "WHERE "
  {
    match stmt
    case NilPointer => Built("", [], Some(ErrStmtNil))
    case Struct(fields) =>
      var sc := ScanFields(fields);
      if sc.failure.Some? then Built(Accumulated(sc.fragments), sc.args, sc.failure)
      else Built(WhereText(sc.fragments), sc.args, None)
  }

  /** A predicate with no blank at either end. */
  predicate Tidy(q: string) {
    |q| > 0 && q[0] != ' ' && q[|q| - 1] != ' '
  }

  datatype Condition = Condition(stmt: Stmt) {

    method BuildQuery() returns (query: string, args: seq<Value>, err: Option<BuildError>)
      requires WellFormed(stmt)
      ensures Built(query, args, err) == WhereClause(stmt)
    {
      query, args, err := "", [], None;
      if stmt.NilPointer? {
        err := Some(ErrStmtNil);
        return;
      }
      var fields := stmt.fields;
      for i := 0 to |fields|
        invariant ScanFields(fields[..i]).failure == None
        invariant query == Accumulated(ScanFields(fields[..i]).fragments)
        invariant args == ScanFields(fields[..i]).args
      {
        var field := fields[i];
        if IsZero(field.value) {
          ScanSkipsZero(fields, i);
          continue;
        }
        var scope := BuildScope(field.name, field.value);
        if scope.Failure? {
          err := Some(scope.error);
          ScanFailsAt(fields, i);
          return;
        }
        ScanGrowsAt(fields, i);
        AccumulatedAppend(ScanFields(fields[..i]).fragments, scope.value.query);
        if query != "" {
          query := query + "AND ";
        }
        query := query + scope.value.query + " ";
        if !scope.value.skipArg {
          args := args + [scope.value.arg];
        }
      }
      assert fields[..|fields|] == fields;
      ScanFragmentsTidy(fields);
      if query != "" {
        TrimAccumulated(ScanFields(fields).fragments);
        query := "WHERE " + Trim(query);
      }
    }
  }

  /** sql.go's NewWhereClause: the builder applied to a statement. */
  method NewWhereClause(stmt: Stmt) returns (whereClause: string, args: seq<Value>, err: Option<BuildError>)
    requires WellFormed(stmt)
    ensures Built(whereClause, args, err) == WhereClause(stmt)
  {
    whereClause, args, err := Condition(stmt).BuildQuery();
  }

  // ---- lemmas the builder's proof uses ----

  lemma AccumulatedAppend(fragments: seq<string>, q: string)
    ensures Accumulated(fragments) == "" <==> fragments == []
    ensures Accumulated(fragments + [q]) ==
            (if fragments == [] then "" else Accumulated(fragments) + "AND ") + q + " "
  {
    var fs := fragments + [q];
    assert fs[..|fs| - 1] == fragments;
  }

  // ---- one step of the loop, on a prefix of the fields ----

  lemma ScanSkipsZero(fields: seq<Field>, i: nat)
    requires i < |fields| && IsZero(fields[i].value)
    ensures ScanFields(fields[..i + 1]) == ScanFields(fields[..i])
  {
    assert fields[..i + 1][..i] == fields[..i];
  }

  lemma ScanGrowsAt(fields: seq<Field>, i: nat)
    requires i < |fields| && !IsZero(fields[i].value) && ScanFields(fields[..i]).failure.None?
    requires BuildScope(fields[i].name, fields[i].value).Success?
    ensures var prev, sc := ScanFields(fields[..i]), BuildScope(fields[i].name, fields[i].value).value;
            ScanFields(fields[..i + 1]) ==
            Scan(prev.fragments + [sc.query], prev.args + (if sc.skipArg then [] else [sc.arg]), None)
  {
    assert fields[..i + 1][..i] == fields[..i];
  }

  lemma ScanFailsAt(fields: seq<Field>, i: nat)
    requires i < |fields| && !IsZero(fields[i].value) && ScanFields(fields[..i]).failure.None?
    requires BuildScope(fields[i].name, fields[i].value).Failure?
    ensures var prev := ScanFields(fields[..i]);
            ScanFields(fields) == Scan(prev.fragments, prev.args, Some(BuildScope(fields[i].name, fields[i].value).error))
  {
    var prefix := fields[..i + 1];
    assert prefix[..|prefix| - 1] == fields[..i];
    assert prefix[|prefix| - 1] == fields[i];
    ScanLastFails(prefix);
    ScanStopsAtFailure(fields, i + 1);
  }

  lemma ScanLastFails(fields: seq<Field>)
    requires |fields| > 0 && ScanFields(fields[..|fields| - 1]).failure.None?
    requires !IsZero(fields[|fields| - 1].value)
    requires BuildScope(fields[|fields| - 1].name, fields[|fields| - 1].value).Failure?
    ensures var prev, f := ScanFields(fields[..|fields| - 1]), fields[|fields| - 1];
            ScanFields(fields) == Scan(prev.fragments, prev.args, Some(BuildScope(f.name, f.value).error))
  {
  }

  /** Once a prefix of the fields has failed, the rest changes nothing. */
  lemma {:induction false} ScanStopsAtFailure(fields: seq<Field>, j: nat)
    requires j <= |fields|
    requires ScanFields(fields[..j]).failure.Some?
    ensures ScanFields(fields) == ScanFields(fields[..j])
    decreases |fields| - j
  {
    if j < |fields| {
      assert fields[..j + 1][..j] == fields[..j];
      ScanStopsAtFailure(fields, j + 1);
    } else {
      assert fields[..j] == fields;
    }
  }

  /** A successful predicate for a non-zero value of an exported field has no
      blank at either end. */
  lemma ScopeTidy(field: string, value: Value)
    requires ExportedIdentifier(field) && !IsZero(value)
    requires BuildScope(field, value).Success?
    ensures Tidy(BuildScope(field, value).value.query)
  {
    ColumnNameOfIdentifier(field);
    ColumnNameNoMeta(field);
    var col := ColumnName(field);
    assert col[0] != ' ' && col[|col| - 1] != ' ';
    AtMostOneOperator(field);
    if IsLikeStatement(field) {
      LikeScope(field, value, col);
      TemplateTidy("LOWER(", col, ") LIKE LOWER(?)");
    } else if IsGreaterThanEqualStatement(field) {
      GteScope(field, value, col);
      TemplateTidy("", col, " >= ?");
    } else if IsLessThanEqualStatement(field) {
      LteScope(field, value, col);
      TemplateTidy("", col, " <= ?");
    } else if IsNotInStatement(field) {
      NotInScope(field, value, col);
      TemplateTidy("", col, " NOT IN (?)");
    } else if IsInStatement(field) {
      InScope(field, value, col);
      TemplateTidy("", col, " IN (?)");
    } else if IsNull(field) {
      NullScope(field, value, col);
      assert value == BoolValue(true);
      TemplateTidy("", col, " IS NULL");
    } else {
      EqualityScope(field, value, col);
      TemplateTidy("", col, " = ?");
    }
  }

  lemma TemplateTidy(before: string, col: string, after: string)
    requires |col| > 0 && col[0] != ' ' && col[|col| - 1] != ' '
    requires before == "" || before[0] != ' '
    requires |after| > 0 && after[|after| - 1] != ' '
    ensures Tidy(before + col + after)
  {
    var q := before + col + after;
    assert q[|q| - 1] == after[|after| - 1];
    if before == "" {
      assert q[0] == col[0];
    } else {
      assert q[0] == before[0];
    }
  }

  lemma {:induction false} ScanFragmentsTidy(fields: seq<Field>)
    requires forall i :: 0 <= i < |fields| ==> ExportedIdentifier(fields[i].name)
    ensures forall k :: 0 <= k < |ScanFields(fields).fragments| ==> Tidy(ScanFields(fields).fragments[k])
    decreases |fields|
  {
    if fields != [] {
      var f := fields[|fields| - 1];
      ScanFragmentsTidy(fields[..|fields| - 1]);
      var prev := ScanFields(fields[..|fields| - 1]);
      if prev.failure.None? && !IsZero(f.value) && BuildScope(f.name, f.value).Success? {
        ScopeTidy(f.name, f.value);
      }
    }
  }

  lemma {:induction false} JoinTidy(parts: seq<string>)
    requires |parts| > 0 && forall k :: 0 <= k < |parts| ==> Tidy(parts[k])
    ensures Tidy(Join(" AND ", parts))
  {
    JoinHead(" AND ", parts);
  }

  /** The final trim turns the accumulated text into the AND-join. */
  lemma TrimAccumulated(fragments: seq<string>)
    requires |fragments| > 0 && forall k :: 0 <= k < |fragments| ==> Tidy(fragments[k])
    ensures Trim(Accumulated(fragments)) == Join(" AND ", fragments)
  {
    var joined := Join(" AND ", fragments);
    JoinTidy(fragments);
    assert Accumulated(fragments) == joined + " ";
    TrimOneTrailingBlank(joined);
  }

  // ---- the templates, one lemma each, for a name whose column is known ----

  lemma EqualityScope(name: string, v: Value, col: string)
    requires (IsEqualStatement(name) || IsNotEqualStatement(name)) && ColumnName(name) == col
    ensures BuildScope(name, v) == Success(Scope(col + " = ?", v, false))
  {
    AtMostOneOperator(name);
  }

  lemma LikeScope(name: string, v: Value, col: string)
    requires IsLikeStatement(name) && ColumnName(name) == col
    ensures BuildScope(name, v) == Success(Scope("LOWER(" + col + ") LIKE LOWER(?)", v, false))
  {
  }

  lemma GteScope(name: string, v: Value, col: string)
    requires IsGreaterThanEqualStatement(name) && ColumnName(name) == col
    ensures BuildScope(name, v) == (if IsListedNumber(v) then Success(Scope(col + " >= ?", v, false))
                                    else Failure(ValueError(NumberOrDateMessage(name))))
  {
    AtMostOneOperator(name);
  }

  lemma LteScope(name: string, v: Value, col: string)
    requires IsLessThanEqualStatement(name) && ColumnName(name) == col
    ensures BuildScope(name, v) == (if IsListedNumber(v) || v.TimeValue? then Success(Scope(col + " <= ?", v, false))
                                    else Failure(ValueError(NumberOrDateMessage(name))))
  {
    AtMostOneOperator(name);
  }

  lemma NotInScope(name: string, v: Value, col: string)
    requires IsNotInStatement(name) && ColumnName(name) == col
    ensures BuildScope(name, v) == Success(Scope(col + " NOT IN (?)", v, false))
  {
    AtMostOneOperator(name);
  }

  lemma InScope(name: string, v: Value, col: string)
    requires IsInStatement(name) && ColumnName(name) == col
    ensures BuildScope(name, v) == Success(Scope(col + " IN (?)", v, false))
  {
    AtMostOneOperator(name);
  }

  lemma NullScope(name: string, v: Value, col: string)
    requires IsNull(name) && ColumnName(name) == col
    ensures BuildScope(name, v) == (match v
                                    case BoolValue(b) => Success(Scope(if b then col + " IS NULL" else "", v, b))
                                    case _ => Failure(ValueError(BooleanMessage(name))))
  {
    AtMostOneOperator(name);
  }

}
