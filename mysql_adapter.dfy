/**
 * The MySQL adapter: validates the options of each of its five operations,
 * assembles the SQL text and the bound parameters, hands the statement to
 * the driver, and turns the driver's answer into the adapter's result.
 *
 * The PDO driver is abstracted as a function from the prepared statement
 * (its text and its named parameters) to the outcome of executing it.
 */
module MySQL {
  import opened Wrappers
  import opened PhpArrays
  import opened SqlText
  import opened ResultShaping

  /** Table prefix used when the configuration names none. */
  const DefaultPrefix := "lilina_"

  /** The SQLSTATE of an integrity constraint violation (a duplicate key, among others). */
  const DuplicateSqlState := "23000"

  /** The codes the adapter raises its own exceptions with. */
  datatype ErrorCode = MissingTable | MissingPrimary | MissingWhere | DataTypeWrong | InvalidWhere | Duplicate

  /** The code string an exception is raised with. */
  function CodeName(c: ErrorCode): (r: string)
    ensures |r| > 3 && r[..3] == "db."
  {
    match c
    case MissingTable => "db.general.missingtable"
    case MissingPrimary => "db.insert.missingprimary"
    case MissingWhere => "db.update.missingwhere"
    case DataTypeWrong => "db.general.datatypewrong"
    case InvalidWhere => "db.general.invalidwhere"
    case Duplicate => "db.insert.duplicate"
  }

  /** Distinct codes have distinct code strings. */
  lemma CodeNamesDistinct(c1: ErrorCode, c2: ErrorCode)
    ensures CodeName(c1) == CodeName(c2) <==> c1 == c2
  {
    if c1 != c2 {
      var n1, n2 := CodeName(c1), CodeName(c2);
      assert n1[3..5] != n2[3..5] || n1[|n1| - 3..] != n2[|n2| - 3..] || |n1| != |n2|;
    }
  }

  /** A `Lilina_DB_Exception` (with or without a code), or a `PDOException` passed through unchanged. */
  datatype DbError =
    | LilinaError(message: string, code: Option<string>)
    | PdoError(sqlState: string, message: string)

  /** The exception a failed option check raises. */
  function Raised(c: ErrorCode): (r: DbError)
    requires c != Duplicate
    ensures r.LilinaError? && r.code == Some(CodeName(c)) && IsValidation(r)
  {
    var message := match c
      case MissingTable => "Table must be specified"
      case MissingPrimary => "Primary key must be specified for insert"
      case MissingWhere => "Condition must be specified for update"
      case DataTypeWrong => "Data must be an object or array"
      case InvalidWhere => "WHERE conditions must be arrays of arrays";
    CodeNamesDistinct(c, Duplicate);
    LilinaError(message, Some(CodeName(c)))
  }

  /** An error raised by an option check, that is, before any statement exists. */
  predicate IsValidation(e: DbError) {
    e.LilinaError? && e.code.Some? && e.code.value != CodeName(Duplicate)
  }

  datatype Result<T> = Ok(value: T) | Err(error: DbError)

  /** A prepared statement: its text and the values bound to its named parameters. */
  datatype Statement = Statement(sql: string, params: map<string, Value>)

  /**
   * What executing a statement gives: the fetched rows, `execute()`
   * returning false with the driver's message, or a `PDOException`.
   */
  datatype Outcome = Executed(rows: seq<Row>) | ExecuteFalse(errorMessage: string) | Thrown(sqlState: string, message: string)

  /**
   * The `$data` argument of `insert` and `update`: an array, an object (with
   * what the base class's `object_to_array` makes of it, `None` when that is
   * not an array), or any other value.
   */
  datatype Payload = ArrayData(fields: OMap<string, Value>) | ObjectData(converted: Option<OMap<string, Value>>) | OtherData

  function AsArray(p: Payload): Option<OMap<string, Value>> {
    match p
    case ArrayData(fields) => Some(fields)
    case ObjectData(converted) => converted
    case OtherData => None
  }

  /** The options of `retrieve`, with the defaults filled in by the caller. */
  datatype RetrieveOptions = RetrieveOptions(
    table: Option<string>, fields: Option<seq<string>>, where: seq<WhereItem>, limit: Option<nat>,
    offset: nat, orderby: Option<OrderBy>, fetchas: string, reindex: Option<string>)

  datatype CountOptions = CountOptions(table: Option<string>, where: seq<WhereItem>, limit: Option<nat>, offset: nat)

  datatype InsertOptions = InsertOptions(table: Option<string>, primary: Option<string>)

  /** The options of `update` and `delete`. */
  datatype WriteOptions = WriteOptions(table: Option<string>, where: seq<WhereItem>, orderby: Option<OrderBy>, limit: Option<nat>)

  /** A failed execution outside `insert`: `execute()` returning false, or a `PDOException` propagating. */
  function ExecutionFailure<T>(o: Outcome): Result<T>
    requires !o.Executed?
  {
    match o
    case ExecuteFalse(m) => Err(LilinaError(m, None))
    case Thrown(state, m) => Err(PdoError(state, m))
  }

  /** `fetchColumn(0)`: the first column of the first row, false when there is no row. */
  function FirstColumn(rows: seq<Row>): (r: Value)
    ensures |rows| == 0 ==> r == Bool(false)
    ensures |rows| > 0 && |rows[0]| > 0 ==> Get(rows[0], rows[0][0].0) == Some(r)
  {
    if |rows| == 0 || |rows[0]| == 0 then Bool(false) else rows[0][0].1
  }

  class MySQLAdapter {
    /** The table prefix, fixed at construction. */
    const prefix: string

    constructor (prefixOption: Option<string>)
      ensures prefix == if prefixOption.Some? then prefixOption.value else DefaultPrefix
    {
      prefix := if prefixOption.Some? then prefixOption.value else DefaultPrefix;
    }

    /**
     * `build_where`: the WHERE clause and the values of its placeholders, or
     * `db.general.invalidwhere` when some condition is not an array. `data`
     * is the payload whose set columns the placeholders must not reuse.
     */
    static method BuildWhere(where: seq<WhereItem>, data: OMap<string, Value>) returns (r: Result<(string, OMap<string, Value>)>)
      ensures r.Err? <==> !WellFormed(where)
      ensures r.Err? ==> r.error == Raised(InvalidWhere)
      ensures r.Ok? ==> WellFormed(where) && r.value == (WhereText(where, data), WhereBinds(where, data))
    {
      var conditions: seq<string> := [];
      var values: OMap<string, Value> := [];
      var i := 0;
      while i < |where|
        invariant 0 <= i <= |where|
        invariant WellFormed(where[..i])
        invariant conditions == Fragments(where[..i], data)
        invariant values == PutAll([], WherePairs(where[..i], data))
      {
        var condition := where[i];
        if condition.NotArray? {
          return Err(Raised(InvalidWhere));
        }
        var op := condition.op;
        if op == "==" || op == "===" {
          op := "=";
        } else if op == "!=" || op == "!==" {
          op := "!=";
        }
        var key := condition.column;
        if IsSet(data, key) {
          key := NoConflictMarker + key;
        }
        assert op == NormalizeOp(condition.op) && key == PlaceholderKey(condition.column, data);
        WhereStep(where, data, i, conditions, values);
        conditions := conditions + ["`" + condition.column + "` " + op + " :" + key];
        values := Put(values, key, condition.value);
        i := i + 1;
      }
      assert where[..i] == where;
      var sql := " WHERE (" + Join(conditions, " AND ") + ")";
      return Ok((sql, values));
    }

    /** The `` `key` = :key `` fragments of a SET list, one per payload entry, in payload order. */
    static method AssignmentList(data: OMap<string, Value>) returns (fields: seq<string>)
      ensures |fields| == |data|
      ensures forall i :: 0 <= i < |data| ==> fields[i] == "`" + data[i].0 + "` = :" + data[i].0
    {
      fields := [];
      for i := 0 to |data|
        invariant fields == Assignments(data[..i])
      {
        var (key, _) := data[i];
        fields := fields + ["`" + key + "` = :" + key];
      }
      assert data[..|data|] == data;
    }

    /** Binds every entry of `values` as the named parameter `:key`. */
    static method BindValues(values: OMap<string, Value>) returns (params: map<string, Value>)
      ensures forall p :: p in params <==> |p| > 0 && p[0] == ':' && p[1..] in Keys(values)
      ensures forall k :: k in Keys(values) ==> ":" + k in params && params[":" + k] == Get(values, k).value
      ensures params == Bindings(values)
    {
      params := map[];
      for i := 0 to |values|
        invariant params == Bindings(values[..i])
      {
        var (key, value) := values[i];
        assert values[..i + 1][..i] == values[..i];
        params := params[":" + key := value];
      }
      assert values[..|values|] == values;
      forall p ensures p in params <==> |p| > 0 && p[0] == ':' && p[1..] in Keys(values) {
        BindingsDomain(values, p);
      }
      forall k | k in Keys(values) ensures ":" + k in params && params[":" + k] == Get(values, k).value {
        BindingsValue(values, k);
      }
    }

    /** The `reindex` loop: each row stored under its value in column `index`. */
    static method ReindexRows(rows: seq<Row>, index: string) returns (data: OMap<Key, Row>)
      ensures data == Reindexed(rows, index)
    {
      data := [];
      for i := 0 to |rows|
        invariant data == PutAll([], ReindexPairs(rows, index)[..i])
      {
        var row := rows[i];
        var key := KeyOf(Column(row, index));
        assert ReindexPairs(rows, index)[..i + 1][..i] == ReindexPairs(rows, index)[..i];
        data := Put(data, key, row);
      }
      assert ReindexPairs(rows, index)[..|rows|] == ReindexPairs(rows, index);
    }

    /** Sets, one by one, a property of a fresh object for each field of `row`. */
    static method CopyFields(row: Row) returns (props: OMap<string, Value>)
      ensures props == row
    {
      props := [];
      for j := 0 to |row|
        invariant props == PutAll([], row[..j])
      {
        var (k, v) := row[j];
        assert row[..j + 1][..j] == row[..j];
        props := Put(props, k, v);
      }
      assert row[..|row|] == row;
      PutAllIntoEmpty(row);
    }

    /** The `fetchas` loop: every entry replaced, under its own key, by an object of class `className`. */
    static method FetchInto(data: OMap<Key, Row>, className: string) returns (entries: OMap<Key, Entry>)
      ensures entries == AsObjects(data, className)
    {
      entries := AsArrays(data);
      for i := 0 to |data|
        invariant |entries| == |data|
        invariant forall j :: 0 <= j < |data| ==> entries[j].0 == data[j].0
        invariant forall j :: 0 <= j < i ==> entries[j].1 == ObjectRow(className, data[j].1)
      {
        var (id, row) := data[i];
        var props := CopyFields(row);
        entries := entries[i := (id, ObjectRow(className, props))];
      }
    }

    /** `retrieve`: the rows of a table that match all conditions, shaped as the options ask. */
    method Retrieve(options: RetrieveOptions, driver: Statement -> Outcome) returns (stmt: Option<Statement>, r: Result<OMap<Key, Entry>>)
      ensures stmt.None? <==> r.Err? && IsValidation(r.error)
      ensures Blank(options.table) ==> r == Err(Raised(MissingTable))
      ensures !Blank(options.table) && !WellFormed(options.where) ==> r == Err(Raised(InvalidWhere))
      ensures !Blank(options.table) && WellFormed(options.where) ==>
        stmt == Some(Statement(
          SelectText(prefix + options.table.value, options.fields, options.where,
                     options.orderby, options.limit, options.offset),
          Bindings(OptionalWhereBinds(options.where))))
      ensures stmt.Some? ==> r == match driver(stmt.value)
        case Executed(rows) => Ok(Shaped(rows, options.reindex, options.fetchas))
        case _ => ExecutionFailure(driver(stmt.value))
    {
      stmt := None;
      if Blank(options.table) {
        r := Err(Raised(MissingTable));
        return;
      }
      var table := prefix + options.table.value;
      var fields := if options.fields.None? then "*" else Join(options.fields.value, ", ");
      var sql := "SELECT " + fields + " FROM " + table;

      var clause := "";
      var values: OMap<string, Value> := [];
      if options.where != [] {
        var w := BuildWhere(options.where, []);
        if w.Err? {
          r := Err(w.error);
          return;
        }
        clause, values := w.value.0, w.value.1;
      }
      assert clause == OptionalWhereText(options.where) && values == OptionalWhereBinds(options.where);
      sql := sql + clause;

      var order := "";
      if options.orderby.Some? && !Blank(options.orderby.value.key) {
        order := " ORDER BY `" + options.orderby.value.key.value + "`";
        if options.orderby.value.direction == Some("desc") {
          order := order + " DESC";
        } else {
          assert order + "" == order;
        }
      }
      assert order == OrderByClause(options.orderby);
      sql := sql + order;

      var page := "";
      if options.limit.Some? {
        if options.offset != 0 {
          page := " LIMIT " + NatToString(options.limit.value) + " OFFSET " + NatToString(options.offset);
        } else {
          page := " LIMIT " + NatToString(options.limit.value);
        }
      } else if options.offset != 0 {
        // an absurdly large row count, since MySQL takes no OFFSET without a LIMIT
        page := " LIMIT " + NatToString(MaxLimit) + " OFFSET " + NatToString(options.offset);
      }
      assert page == PaginationClause(options.limit, options.offset);
      sql := sql + page;

      sql := sql + ";";
      assert sql == SelectText(table, options.fields, options.where, options.orderby, options.limit, options.offset);
      var params: map<string, Value> := map[];
      if values != [] {
        params := BindValues(values);
      }
      var s := Statement(sql, params);
      stmt := Some(s);

      var outcome := driver(s);
      if !outcome.Executed? {
        r := ExecutionFailure(outcome);
        return;
      }
      var rows := outcome.rows;
      var data: OMap<Key, Row>;
      if !Blank(options.reindex) {
        data := ReindexRows(rows, options.reindex.value);
      } else {
        data := Positional(rows);
      }
      var entries: OMap<Key, Entry>;
      if options.fetchas != "array" {
        entries := FetchInto(data, options.fetchas);
      } else {
        entries := AsArrays(data);
      }
      r := Ok(entries);
    }

    /** `count`: the number of matching rows, as the driver's first column. */
    method Count(options: CountOptions, driver: Statement -> Outcome) returns (stmt: Option<Statement>, r: Result<Value>)
      ensures stmt.None? <==> r.Err? && IsValidation(r.error)
      ensures Blank(options.table) ==> r == Err(Raised(MissingTable))
      ensures !Blank(options.table) && !WellFormed(options.where) ==> r == Err(Raised(InvalidWhere))
      ensures !Blank(options.table) && WellFormed(options.where) ==>
        stmt == Some(Statement(
          CountText(prefix + options.table.value, options.where, options.limit, options.offset),
          Bindings(OptionalWhereBinds(options.where))))
      ensures stmt.Some? ==> r == match driver(stmt.value)
        case Executed(rows) => Ok(FirstColumn(rows))
        case _ => ExecutionFailure(driver(stmt.value))
    {
      stmt := None;
      if Blank(options.table) {
        r := Err(Raised(MissingTable));
        return;
      }
      var table := prefix + options.table.value;
      var sql := "SELECT COUNT(*) FROM " + table;

      var clause := "";
      var values: OMap<string, Value> := [];
      if options.where != [] {
        var w := BuildWhere(options.where, []);
        if w.Err? {
          r := Err(w.error);
          return;
        }
        clause, values := w.value.0, w.value.1;
      }
      assert clause == OptionalWhereText(options.where) && values == OptionalWhereBinds(options.where);
      sql := sql + clause;

      var page := "";
      if options.limit.Some? {
        if options.offset != 0 {
          page := " LIMIT " + NatToString(options.limit.value) + " OFFSET " + NatToString(options.offset);
        } else {
          page := " LIMIT " + NatToString(options.limit.value);
        }
      } else if options.offset != 0 {
        // an absurdly large row count, since MySQL takes no OFFSET without a LIMIT
        page := " LIMIT " + NatToString(MaxLimit) + " OFFSET " + NatToString(options.offset);
      }
      assert page == PaginationClause(options.limit, options.offset);
      sql := sql + page;

      sql := sql + ";";
      assert sql == CountText(table, options.where, options.limit, options.offset);
      var params: map<string, Value> := map[];
      if values != [] {
        params := BindValues(values);
      }
      var s := Statement(sql, params);
      stmt := Some(s);

      var outcome := driver(s);
      if !outcome.Executed? {
        r := ExecutionFailure(outcome);
        return;
      }
      r := Ok(FirstColumn(outcome.rows));
    }

    /**
     * `insert`: one row from the payload. A `PDOException` with SQLSTATE
     * 23000 becomes `db.insert.duplicate`; any other one is passed on.
     */
    method Insert(data: Payload, options: InsertOptions, driver: Statement -> Outcome) returns (stmt: Option<Statement>, r: Result<bool>)
      ensures stmt.None? <==> r.Err? && IsValidation(r.error)
      ensures Blank(options.table) ==> r == Err(Raised(MissingTable))
      ensures !Blank(options.table) && Blank(options.primary) ==> r == Err(Raised(MissingPrimary))
      ensures !Blank(options.table) && !Blank(options.primary) && AsArray(data).None? ==> r == Err(Raised(DataTypeWrong))
      ensures !Blank(options.table) && !Blank(options.primary) && AsArray(data).Some? ==>
        stmt == Some(Statement(InsertText(prefix + options.table.value, AsArray(data).value), Bindings(AsArray(data).value)))
      ensures stmt.Some? ==> r == match driver(stmt.value)
        case Executed(_) => Ok(true)
        case ExecuteFalse(m) => Err(LilinaError(m, None))
        case Thrown(state, m) =>
          if state == DuplicateSqlState then Err(LilinaError(m, Some(CodeName(Duplicate)))) else Err(PdoError(state, m))
    {
      stmt := None;
      if Blank(options.table) {
        r := Err(Raised(MissingTable));
        return;
      }
      var table := prefix + options.table.value;
      if Blank(options.primary) {
        r := Err(Raised(MissingPrimary));
        return;
      }
      var converted := AsArray(data);
      if converted.None? {
        r := Err(Raised(DataTypeWrong));
        return;
      }
      var fields := converted.value;

      var sql := "INSERT INTO " + table + " SET ";
      var assignments := AssignmentList(fields);
      assert assignments == Assignments(fields);
      sql := sql + Join(assignments, ", ");

      assert sql == InsertText(table, fields);
      var params := BindValues(fields);
      var s := Statement(sql, params);
      stmt := Some(s);

      var outcome := driver(s);
      match outcome {
        case Executed(_) =>
          r := Ok(true);
        case ExecuteFalse(m) =>
          r := Err(LilinaError(m, None));
        case Thrown(state, m) =>
          if state == DuplicateSqlState {
            r := Err(LilinaError(m, Some(CodeName(Duplicate))));
          } else {
            r := Err(PdoError(state, m));
          }
      }
    }

    /**
     * `update`: the payload written to the rows matching the conditions. The
     * condition values are merged into the payload's values, under renamed
     * placeholders where the payload sets the same column.
     */
    method Update(data: Payload, options: WriteOptions, driver: Statement -> Outcome) returns (stmt: Option<Statement>, r: Result<bool>)
      ensures stmt.None? <==> r.Err? && IsValidation(r.error)
      ensures Blank(options.table) ==> r == Err(Raised(MissingTable))
      ensures !Blank(options.table) && options.where == [] ==> r == Err(Raised(MissingWhere))
      ensures !Blank(options.table) && options.where != [] && AsArray(data).None? ==> r == Err(Raised(DataTypeWrong))
      ensures !Blank(options.table) && options.where != [] && AsArray(data).Some? && !WellFormed(options.where) ==>
        r == Err(Raised(InvalidWhere))
      ensures !Blank(options.table) && options.where != [] && AsArray(data).Some? && WellFormed(options.where) ==>
        stmt == Some(Statement(
          UpdateText(prefix + options.table.value, AsArray(data).value, options.where, options.orderby, options.limit),
          Bindings(UpdateValues(AsArray(data).value, options.where))))
      ensures stmt.Some? ==> r == match driver(stmt.value)
        case Executed(_) => Ok(true)
        case _ => ExecutionFailure(driver(stmt.value))
    {
      stmt := None;
      if Blank(options.table) {
        r := Err(Raised(MissingTable));
        return;
      }
      var table := prefix + options.table.value;
      if options.where == [] {
        r := Err(Raised(MissingWhere));
        return;
      }
      var converted := AsArray(data);
      if converted.None? {
        r := Err(Raised(DataTypeWrong));
        return;
      }
      var fields := converted.value;

      var sql := "UPDATE " + table + " SET ";
      var assignments := AssignmentList(fields);
      assert assignments == Assignments(fields);
      sql := sql + Join(assignments, ", ");

      // The conditions are known to be non-empty here.
      var w := BuildWhere(options.where, fields);
      if w.Err? {
        r := Err(w.error);
        return;
      }
      sql := sql + w.value.0;
      var values := ArrayMerge(fields, w.value.1);

      var order := "";
      if options.orderby.Some? && !Blank(options.orderby.value.key) {
        order := " ORDER BY `" + options.orderby.value.key.value + "`";
        if options.orderby.value.direction == Some("desc") {
          order := order + " DESC";
        } else {
          assert order + "" == order;
        }
      }
      assert order == OrderByClause(options.orderby);
      sql := sql + order;

      var page := "";
      if options.limit.Some? {
        page := " LIMIT " + NatToString(options.limit.value);
      }
      assert page == LimitOnlyClause(options.limit);
      sql := sql + page;

      assert sql == UpdateText(table, fields, options.where, options.orderby, options.limit);
      var params := BindValues(values);
      var s := Statement(sql, params);
      stmt := Some(s);

      var outcome := driver(s);
      if !outcome.Executed? {
        r := ExecutionFailure(outcome);
        return;
      }
      r := Ok(true);
    }

    /** `delete`: the rows matching the conditions; an empty condition list is refused. */
    method Delete(options: WriteOptions, driver: Statement -> Outcome) returns (stmt: Option<Statement>, r: Result<bool>)
      ensures stmt.None? <==> r.Err? && IsValidation(r.error)
      ensures Blank(options.table) ==> r == Err(Raised(MissingTable))
      ensures !Blank(options.table) && options.where == [] ==> r == Err(Raised(MissingWhere))
      ensures !Blank(options.table) && options.where != [] && !WellFormed(options.where) ==> r == Err(Raised(InvalidWhere))
      ensures !Blank(options.table) && options.where != [] && WellFormed(options.where) ==>
        stmt == Some(Statement(
          DeleteText(prefix + options.table.value, options.where, options.orderby, options.limit),
          Bindings(WhereBinds(options.where, []))))
      ensures stmt.Some? ==> r == match driver(stmt.value)
        case Executed(_) => Ok(true)
        case _ => ExecutionFailure(driver(stmt.value))
    {
      stmt := None;
      if Blank(options.table) {
        r := Err(Raised(MissingTable));
        return;
      }
      var table := prefix + options.table.value;
      if options.where == [] {
        r := Err(Raised(MissingWhere));
        return;
      }

      var sql := "DELETE FROM " + table;
      var w := BuildWhere(options.where, []);
      if w.Err? {
        r := Err(w.error);
        return;
      }
      sql := sql + w.value.0;
      var values := w.value.1;

      var order := "";
      if options.orderby.Some? && !Blank(options.orderby.value.key) {
        order := " ORDER BY `" + options.orderby.value.key.value + "`";
        if options.orderby.value.direction == Some("desc") {
          order := order + " DESC";
        } else {
          assert order + "" == order;
        }
      }
      assert order == OrderByClause(options.orderby);
      sql := sql + order;

      var page := "";
      if options.limit.Some? {
        page := " LIMIT " + NatToString(options.limit.value);
      }
      assert page == LimitOnlyClause(options.limit);
      sql := sql + page;

      assert sql == DeleteText(table, options.where, options.orderby, options.limit);
      var params := BindValues(values);
      var s := Statement(sql, params);
      stmt := Some(s);

      var outcome := driver(s);
      if !outcome.Executed? {
        r := ExecutionFailure(outcome);
        return;
      }
      r := Ok(true);
    }
  }
}
