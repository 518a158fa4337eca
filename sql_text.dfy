/**
 * The SQL text the MySQL adapter assembles: WHERE conditions with their
 * placeholders, ORDER BY, LIMIT/OFFSET, and the five statement shapes.
 * Also a reader for the LIMIT clause, as MySQL reads it, so that what the
 * clauses mean can be stated.
 */
module SqlText {
  import opened Wrappers
  import opened PhpArrays

  /** Prefix that renames a condition's placeholder when the payload already binds its column. */
  const NoConflictMarker := "__noconflict_"

  /** The row count written in place of "no limit" when only an offset is given (2^64 - 1). */
  const MaxLimit: nat := 18446744073709551615

  /** One entry of the `where` option: a `(column, operator, value)` array, or something that is not an array. */
  datatype WhereItem = Condition(column: string, op: string, value: Value) | NotArray

  /** The `orderby` option; `None` stands for null or an empty array. */
  datatype OrderBy = OrderBy(key: Option<string>, direction: Option<string>)

  predicate WellFormed(where: seq<WhereItem>) {
    forall i :: 0 <= i < |where| ==> where[i].Condition?
  }

  /**
   * Operator rewriting in `build_where`: `==` and `===` become `=`,
   * `!=` and `!==` become `!=`, every other operator is kept as it is.
   */
  function NormalizeOp(op: string): (r: string)
    ensures r == "=" <==> (op == "=" || op == "==" || op == "===")
    ensures r == "!=" <==> (op == "!=" || op == "!==")
    ensures op != "==" && op != "===" && op != "!==" ==> r == op
    ensures r != "==" && r != "===" && r != "!=="
  {
    if op == "==" || op == "===" then "="
    else if op == "!=" || op == "!==" then "!="
    else op
  }

  /** The placeholder name of a condition on `column`, given the payload `data` it is merged with. */
  function PlaceholderKey(column: string, data: OMap<string, Value>): (r: string)
    ensures r == column <==> !IsSet(data, column)
    ensures IsSet(data, column) ==> HasMarker(r) && r[|NoConflictMarker|..] == column
  {
    if IsSet(data, column) then NoConflictMarker + column else column
  }

  function ConditionFragment(c: WhereItem, data: OMap<string, Value>): string
    requires c.Condition?
  {
    "`" + c.column + "` " + NormalizeOp(c.op) + " :" + PlaceholderKey(c.column, data)
  }

  function Fragments(where: seq<WhereItem>, data: OMap<string, Value>): seq<string>
    requires WellFormed(where)
  {
    seq(|where|, i requires 0 <= i < |where| => ConditionFragment(where[i], data))
  }

  lemma PrefixWellFormed(where: seq<WhereItem>, i: int)
    requires 0 <= i < |where| && where[i].Condition? && WellFormed(where[..i])
    ensures WellFormed(where[..i + 1])
  {
    var longer := where[..i + 1];
    forall j | 0 <= j < i + 1 ensures longer[j].Condition? {
      if j < i { assert longer[j] == where[..i][j]; }
    }
  }

  lemma FragmentsSnoc(where: seq<WhereItem>, data: OMap<string, Value>, i: int)
    requires 0 <= i < |where| && WellFormed(where[..i]) && WellFormed(where[..i + 1])
    ensures Fragments(where[..i + 1], data) == Fragments(where[..i], data) + [ConditionFragment(where[i], data)]
  {
    var a, b := Fragments(where[..i + 1], data), Fragments(where[..i], data) + [ConditionFragment(where[i], data)];
    forall j | 0 <= j < i + 1 ensures a[j] == b[j] {
      if j < i { assert where[..i + 1][j] == where[..i][j]; } else { assert where[..i + 1][j] == where[i]; }
    }
  }

  lemma WherePairsSnoc(where: seq<WhereItem>, data: OMap<string, Value>, i: int)
    requires 0 <= i < |where| && WellFormed(where[..i]) && WellFormed(where[..i + 1])
    ensures WherePairs(where[..i + 1], data)
         == WherePairs(where[..i], data) + [(PlaceholderKey(where[i].column, data), where[i].value)]
  {
    var a, b := WherePairs(where[..i + 1], data), WherePairs(where[..i], data) + [(PlaceholderKey(where[i].column, data), where[i].value)];
    forall j | 0 <= j < i + 1 ensures a[j] == b[j] {
      if j < i { assert where[..i + 1][j] == where[..i][j]; } else { assert where[..i + 1][j] == where[i]; }
    }
  }

  /** One more condition adds its fragment and its placeholder's value at the end. */
  lemma WhereStep(where: seq<WhereItem>, data: OMap<string, Value>, i: int,
                  conditions: seq<string>, values: OMap<string, Value>)
    requires 0 <= i < |where| && where[i].Condition? && WellFormed(where[..i])
    requires conditions == Fragments(where[..i], data)
    requires values == PutAll([], WherePairs(where[..i], data))
    ensures WellFormed(where[..i + 1])
    ensures conditions + [ConditionFragment(where[i], data)] == Fragments(where[..i + 1], data)
    ensures Put(values, PlaceholderKey(where[i].column, data), where[i].value)
         == PutAll([], WherePairs(where[..i + 1], data))
  {
    PrefixWellFormed(where, i);
    FragmentsSnoc(where, data, i);
    WherePairsSnoc(where, data, i);
    PutAllSnoc([], WherePairs(where[..i], data), PlaceholderKey(where[i].column, data), where[i].value);
  }

  /** The clause `build_where` returns. */
  function WhereText(where: seq<WhereItem>, data: OMap<string, Value>): string
    requires WellFormed(where)
  {
    " WHERE (" + Join(Fragments(where, data), " AND ") + ")"
  }

  function WherePairs(where: seq<WhereItem>, data: OMap<string, Value>): seq<(string, Value)>
    requires WellFormed(where)
  {
    seq(|where|, i requires 0 <= i < |where| => (PlaceholderKey(where[i].column, data), where[i].value))
  }

  /**
   * The values array `build_where` returns: one entry per distinct
   * placeholder, keyed by the placeholder names of the conditions.
   */
  function WhereBinds(where: seq<WhereItem>, data: OMap<string, Value>): (r: OMap<string, Value>)
    requires WellFormed(where)
    ensures Keys(r) == set i | 0 <= i < |where| :: PlaceholderKey(where[i].column, data)
    ensures |r| <= |where|
  {
    var pairs := WherePairs(where, data);
    assert Keys(pairs) == set i | 0 <= i < |where| :: PlaceholderKey(where[i].column, data) by {
      forall k | k in Keys(pairs) ensures exists i :: 0 <= i < |where| && k == PlaceholderKey(where[i].column, data) {
        var i :| 0 <= i < |pairs| && pairs[i].0 == k;
        assert k == PlaceholderKey(where[i].column, data);
      }
      forall i | 0 <= i < |where| ensures PlaceholderKey(where[i].column, data) in Keys(pairs) {
        assert pairs[i].0 == PlaceholderKey(where[i].column, data);
      }
    }
    PutAll([], pairs)
  }

  /** Of several conditions sharing a placeholder, the last one's value is the one bound. */
  lemma WhereBindsLastWins(where: seq<WhereItem>, data: OMap<string, Value>, i: int)
    requires WellFormed(where) && 0 <= i < |where|
    requires forall j :: i < j < |where| ==>
      PlaceholderKey(where[j].column, data) != PlaceholderKey(where[i].column, data)
    ensures Get(WhereBinds(where, data), PlaceholderKey(where[i].column, data)) == Some(where[i].value)
  {
    var pairs := WherePairs(where, data);
    assert IsLastFor(pairs, i) by {
      forall j | i < j < |pairs| ensures pairs[j].0 != pairs[i].0 {
        assert pairs[j].0 == PlaceholderKey(where[j].column, data);
      }
    }
    PutAllLastWins([], pairs, i);
  }

  /** PHP's `array_merge` of two arrays with string keys. */
  function ArrayMerge(a: OMap<string, Value>, b: OMap<string, Value>): (r: OMap<string, Value>)
    ensures Keys(r) == Keys(a) + Keys(b)
    ensures forall k :: Get(r, k) == if k in Keys(b) then Get(b, k) else Get(a, k)
  {
    var r := PutAll(a, b);
    assert forall k :: Get(r, k) == if k in Keys(b) then Get(b, k) else Get(a, k) by {
      forall k ensures Get(r, k) == if k in Keys(b) then Get(b, k) else Get(a, k) {
        PutAllGetOMap(a, b, k);
      }
    }
    r
  }

  /** The values `update` binds: the payload merged with the values of its conditions. */
  function UpdateValues(data: OMap<string, Value>, where: seq<WhereItem>): OMap<string, Value>
    requires WellFormed(where)
  {
    ArrayMerge(data, WhereBinds(where, data))
  }

  predicate HasMarker(k: string) {
    |NoConflictMarker| <= |k| && k[..|NoConflictMarker|] == NoConflictMarker
  }

  /**
   * In `update`, a payload column with a non-null value keeps its own value
   * under its own placeholder, whatever the conditions say about that
   * column (unless the column name itself starts with the rename marker).
   */
  lemma UpdateKeepsPayload(data: OMap<string, Value>, where: seq<WhereItem>, k: string)
    requires WellFormed(where) && IsSet(data, k) && !HasMarker(k)
    ensures Get(UpdateValues(data, where), k) == Get(data, k)
  {
    var binds := WhereBinds(where, data);
    if k in Keys(binds) {
      assert false;
    }
    PutAllGetOMap(data, binds, k);
  }

  /** In `update`, each condition's placeholder holds that condition's value (the last one, when several share it). */
  lemma UpdateBindsConditions(data: OMap<string, Value>, where: seq<WhereItem>, i: int)
    requires WellFormed(where) && 0 <= i < |where|
    requires forall j :: i < j < |where| ==>
      PlaceholderKey(where[j].column, data) != PlaceholderKey(where[i].column, data)
    ensures Get(UpdateValues(data, where), PlaceholderKey(where[i].column, data)) == Some(where[i].value)
  {
    var k := PlaceholderKey(where[i].column, data);
    WhereBindsLastWins(where, data, i);
    PutAllGetOMap(data, WhereBinds(where, data), k);
  }

  /**
   * `isset` is false for a null value, so a payload column set to null is not
   * renamed: its SET placeholder and the condition's placeholder coincide and
   * the merged values carry the condition's value, not the null.
   */
  lemma UpdateNullPayloadTakesConditionValue(data: OMap<string, Value>, where: seq<WhereItem>, i: int)
    requires WellFormed(where) && 0 <= i < |where|
    requires Get(data, where[i].column) == Some(Null)
    requires forall j :: i < j < |where| ==>
      PlaceholderKey(where[j].column, data) != PlaceholderKey(where[i].column, data)
    ensures PlaceholderKey(where[i].column, data) == where[i].column
    ensures Get(UpdateValues(data, where), where[i].column) == Some(where[i].value)
  {
    UpdateBindsConditions(data, where, i);
  }

  /**
   * The parameters `build_where` leads its callers to bind are the names
   * `:key` of the conditions' placeholders, and no others.
   */
  lemma WhereParameters(where: seq<WhereItem>, data: OMap<string, Value>)
    requires WellFormed(where)
    ensures forall i :: 0 <= i < |where| ==> ":" + PlaceholderKey(where[i].column, data) in Bindings(WhereBinds(where, data))
    ensures forall p :: p in Bindings(WhereBinds(where, data)) ==>
      |p| > 0 && p[0] == ':' && exists i :: 0 <= i < |where| && p[1..] == PlaceholderKey(where[i].column, data)
  {
    var binds := WhereBinds(where, data);
    forall i | 0 <= i < |where| ensures ":" + PlaceholderKey(where[i].column, data) in Bindings(binds) {
      var p := ":" + PlaceholderKey(where[i].column, data);
      BindingsDomain(binds, p);
      assert p[1..] == PlaceholderKey(where[i].column, data);
    }
    forall p | p in Bindings(binds)
      ensures |p| > 0 && p[0] == ':' && exists i :: 0 <= i < |where| && p[1..] == PlaceholderKey(where[i].column, data)
    {
      BindingsDomain(binds, p);
    }
  }

  /**
   * `update` binds a parameter for every SET placeholder and every condition
   * placeholder, and no other parameter.
   */
  lemma UpdateParameters(data: OMap<string, Value>, where: seq<WhereItem>)
    requires WellFormed(where)
    ensures forall k :: k in Keys(data) ==> ":" + k in Bindings(UpdateValues(data, where))
    ensures forall i :: 0 <= i < |where| ==> ":" + PlaceholderKey(where[i].column, data) in Bindings(UpdateValues(data, where))
    ensures forall p :: p in Bindings(UpdateValues(data, where)) ==>
      |p| > 0 && p[0] == ':' &&
      (p[1..] in Keys(data) || exists i :: 0 <= i < |where| && p[1..] == PlaceholderKey(where[i].column, data))
  {
    var merged := UpdateValues(data, where);
    assert Keys(merged) == Keys(data) + Keys(WhereBinds(where, data));
    forall k | k in Keys(data) ensures ":" + k in Bindings(merged) {
      BindingsDomain(merged, ":" + k);
      assert (":" + k)[1..] == k;
    }
    forall i | 0 <= i < |where| ensures ":" + PlaceholderKey(where[i].column, data) in Bindings(merged) {
      var p := ":" + PlaceholderKey(where[i].column, data);
      BindingsDomain(merged, p);
      assert p[1..] == PlaceholderKey(where[i].column, data);
    }
    forall p | p in Bindings(merged)
      ensures |p| > 0 && p[0] == ':' &&
        (p[1..] in Keys(data) || exists i :: 0 <= i < |where| && p[1..] == PlaceholderKey(where[i].column, data))
    {
      BindingsDomain(merged, p);
    }
  }

  /** The ORDER BY part: only for a non-empty key, DESC only for the direction "desc". */
  function OrderByClause(orderby: Option<OrderBy>): (r: string)
    ensures r == "" <==> !(orderby.Some? && !Blank(orderby.value.key))
    ensures r != "" ==> |r| >= 11 && r[..11] == " ORDER BY `"
    ensures r != "" ==> (r[|r| - 5..] == " DESC" <==> orderby.value.direction == Some("desc"))
  {
    if orderby.Some? && !Blank(orderby.value.key) then
      var head := " ORDER BY `" + orderby.value.key.value + "`";
      var r := head + (if orderby.value.direction == Some("desc") then " DESC" else "");
      assert r[..11] == " ORDER BY `";
      if orderby.value.direction == Some("desc") then
        assert r[|r| - 5..] == " DESC";
        r
      else
        assert r == head && r[|r| - 1] == '`';
        r
    else ""
  }

  /** Pagination of `retrieve` and `count`. */
  function PaginationClause(limit: Option<nat>, offset: nat): (r: string)
    ensures r == "" <==> limit.None? && offset == 0
  {
    if limit.Some? then
      if offset != 0 then " LIMIT " + NatToString(limit.value) + " OFFSET " + NatToString(offset)
      else " LIMIT " + NatToString(limit.value)
    else if offset != 0 then " LIMIT " + NatToString(MaxLimit) + " OFFSET " + NatToString(offset)
    else ""
  }

  /** Pagination of `update` and `delete`: a limit, never an offset. */
  function LimitOnlyClause(limit: Option<nat>): (r: string)
    ensures r == "" <==> limit.None?
  {
    if limit.Some? then " LIMIT " + NatToString(limit.value) else ""
  }

  function FieldList(fields: Option<seq<string>>): string {
    if fields.None? then "*" else Join(fields.value, ", ")
  }

  function Assignments(data: OMap<string, Value>): seq<string> {
    seq(|data|, i requires 0 <= i < |data| => "`" + data[i].0 + "` = :" + data[i].0)
  }

  /** The SET list of `insert` and `update`: one `` `k` = :k `` per payload key, in payload order. */
  function SetList(data: OMap<string, Value>): string {
    Join(Assignments(data), ", ")
  }

  function OptionalWhereText(where: seq<WhereItem>): string
    requires WellFormed(where)
  {
    if where == [] then "" else WhereText(where, [])
  }

  function OptionalWhereBinds(where: seq<WhereItem>): OMap<string, Value>
    requires WellFormed(where)
  {
    if where == [] then [] else WhereBinds(where, [])
  }

  // The five statements; `table` is the already prefixed table name.

  function SelectText(table: string, fields: Option<seq<string>>, where: seq<WhereItem>,
                      orderby: Option<OrderBy>, limit: Option<nat>, offset: nat): (r: string)
    requires WellFormed(where)
    ensures var head := "SELECT " + FieldList(fields) + " FROM " + table;
      |head| < |r| && r[..|head|] == head && r[|r| - 1] == ';'
  {
    var head := "SELECT " + FieldList(fields) + " FROM " + table;
    var r := head + OptionalWhereText(where) + OrderByClause(orderby) + PaginationClause(limit, offset) + ";";
    assert r[..|head|] == head;
    r
  }

  function CountText(table: string, where: seq<WhereItem>, limit: Option<nat>, offset: nat): (r: string)
    requires WellFormed(where)
    ensures var head := "SELECT COUNT(*) FROM " + table;
      |head| < |r| && r[..|head|] == head && r[|r| - 1] == ';'
  {
    var head := "SELECT COUNT(*) FROM " + table;
    var r := head + OptionalWhereText(where) + PaginationClause(limit, offset) + ";";
    assert r[..|head|] == head;
    r
  }

  function InsertText(table: string, data: OMap<string, Value>): (r: string)
    ensures var head := "INSERT INTO " + table + " SET ";
      |head| <= |r| && r[..|head|] == head && (data == [] <==> r == head)
  {
    var head := "INSERT INTO " + table + " SET ";
    var r := head + SetList(data);
    assert r[..|head|] == head;
    SetListEmpty(data);
    r
  }

  lemma SetListEmpty(data: OMap<string, Value>)
    ensures SetList(data) == "" <==> data == []
  {
    if data != [] {
      var a := Assignments(data);
      assert |a[0]| > 0;
      if |a| > 1 {
        assert |SetList(data)| >= |a[0]|;
      }
    }
  }

  function UpdateText(table: string, data: OMap<string, Value>, where: seq<WhereItem>,
                      orderby: Option<OrderBy>, limit: Option<nat>): (r: string)
    requires WellFormed(where)
    ensures var head := "UPDATE " + table + " SET " + SetList(data) + " WHERE (";
      |head| < |r| && r[..|head|] == head
  {
    var head := "UPDATE " + table + " SET " + SetList(data);
    var r := head + WhereText(where, data) + OrderByClause(orderby) + LimitOnlyClause(limit);
    assert r[..|head| + 8] == head + " WHERE (";
    r
  }

  function DeleteText(table: string, where: seq<WhereItem>, orderby: Option<OrderBy>, limit: Option<nat>): (r: string)
    requires WellFormed(where)
    ensures var head := "DELETE FROM " + table + " WHERE (";
      |head| < |r| && r[..|head|] == head
  {
    var head := "DELETE FROM " + table;
    var r := head + WhereText(where, []) + OrderByClause(orderby) + LimitOnlyClause(limit);
    assert r[..|head| + 8] == head + " WHERE (";
    r
  }

  // Values never reach the text.

  /** Two condition lists that differ at most in their values, over payloads that agree on which columns are set. */
  predicate SameShape(w1: seq<WhereItem>, w2: seq<WhereItem>, d1: OMap<string, Value>, d2: OMap<string, Value>) {
    WellFormed(w1) && WellFormed(w2) && |w1| == |w2| &&
    forall i :: 0 <= i < |w1| ==>
      w1[i].column == w2[i].column && w1[i].op == w2[i].op &&
      (IsSet(d1, w1[i].column) <==> IsSet(d2, w1[i].column))
  }

  /** Condition values do not enter the WHERE text. */
  lemma WhereTextIgnoresValues(w1: seq<WhereItem>, w2: seq<WhereItem>, d1: OMap<string, Value>, d2: OMap<string, Value>)
    requires SameShape(w1, w2, d1, d2)
    ensures WhereText(w1, d1) == WhereText(w2, d2)
  {
    assert Fragments(w1, d1) == Fragments(w2, d2) by {
      forall i | 0 <= i < |w1| ensures Fragments(w1, d1)[i] == Fragments(w2, d2)[i] {
        assert PlaceholderKey(w1[i].column, d1) == PlaceholderKey(w2[i].column, d2);
      }
    }
  }

  /** Two payloads with the same columns in the same order. */
  predicate SameColumns(d1: OMap<string, Value>, d2: OMap<string, Value>) {
    |d1| == |d2| && forall i :: 0 <= i < |d1| ==> d1[i].0 == d2[i].0
  }

  /** Payload values do not enter the INSERT text. */
  lemma InsertTextIgnoresValues(table: string, d1: OMap<string, Value>, d2: OMap<string, Value>)
    requires SameColumns(d1, d2)
    ensures InsertText(table, d1) == InsertText(table, d2)
  {
    assert Assignments(d1) == Assignments(d2);
  }

  /**
   * Neither payload values nor condition values enter the UPDATE text; a
   * payload value matters only through whether it is null.
   */
  lemma UpdateTextIgnoresValues(table: string, d1: OMap<string, Value>, d2: OMap<string, Value>,
                                w1: seq<WhereItem>, w2: seq<WhereItem>, orderby: Option<OrderBy>, limit: Option<nat>)
    requires SameColumns(d1, d2) && SameShape(w1, w2, d1, d2)
    ensures UpdateText(table, d1, w1, orderby, limit) == UpdateText(table, d2, w2, orderby, limit)
  {
    assert Assignments(d1) == Assignments(d2);
    WhereTextIgnoresValues(w1, w2, d1, d2);
  }

  /** Condition values do not enter the SELECT text. */
  lemma SelectTextIgnoresValues(table: string, fields: Option<seq<string>>, w1: seq<WhereItem>, w2: seq<WhereItem>,
                                orderby: Option<OrderBy>, limit: Option<nat>, offset: nat)
    requires SameShape(w1, w2, [], [])
    ensures SelectText(table, fields, w1, orderby, limit, offset) == SelectText(table, fields, w2, orderby, limit, offset)
  {
    WhereTextIgnoresValues(w1, w2, [], []);
  }

  /** Condition values do not enter the COUNT text. */
  lemma CountTextIgnoresValues(table: string, w1: seq<WhereItem>, w2: seq<WhereItem>, limit: Option<nat>, offset: nat)
    requires SameShape(w1, w2, [], [])
    ensures CountText(table, w1, limit, offset) == CountText(table, w2, limit, offset)
  {
    WhereTextIgnoresValues(w1, w2, [], []);
  }

  /** Condition values do not enter the DELETE text. */
  lemma DeleteTextIgnoresValues(table: string, w1: seq<WhereItem>, w2: seq<WhereItem>,
                                orderby: Option<OrderBy>, limit: Option<nat>)
    requires SameShape(w1, w2, [], [])
    ensures DeleteText(table, w1, orderby, limit) == DeleteText(table, w2, orderby, limit)
  {
    WhereTextIgnoresValues(w1, w2, [], []);
  }

  // Decimal numbers.

  predicate IsDigit(c: char) {
    '0' <= c <= '9'
  }

  predicate AllDigits(s: string) {
    forall i :: 0 <= i < |s| ==> IsDigit(s[i])
  }

  function DigitChar(d: nat): (c: char)
    requires d < 10
    ensures IsDigit(c)
  {
    ('0' as int + d) as char
  }

  function DigitValue(c: char): nat
    requires IsDigit(c)
  {
    c as int - '0' as int
  }

  /** How PHP writes a non-negative integer into a string. */
  function NatToString(n: nat): (s: string)
    ensures |s| > 0 && AllDigits(s)
    decreases n
  {
    if n < 10 then [DigitChar(n)] else NatToString(n / 10) + [DigitChar(n % 10)]
  }

  /** The number a string of decimal digits denotes. */
  function DigitsValue(s: string): nat
    requires AllDigits(s)
    decreases |s|
  {
    if s == [] then 0 else DigitsValue(s[..|s| - 1]) * 10 + DigitValue(s[|s| - 1])
  }

  lemma {:induction false} NatToStringRoundTrip(n: nat)
    ensures DigitsValue(NatToString(n)) == n
    decreases n
  {
    var s := NatToString(n);
    if n >= 10 {
      NatToStringRoundTrip(n / 10);
      assert s[..|s| - 1] == NatToString(n / 10);
    }
  }

  /** The longest prefix of digits and what follows it. */
  function TakeDigits(s: string): (r: (string, string))
    ensures r.0 + r.1 == s && AllDigits(r.0)
    ensures r.1 == [] || !IsDigit(r.1[0])
    decreases |s|
  {
    if s != [] && IsDigit(s[0]) then
      var (d, rest) := TakeDigits(s[1..]);
      ([s[0]] + d, rest)
    else ([], s)
  }

  lemma {:induction false} TakeDigitsOf(d: string, rest: string)
    requires AllDigits(d) && (rest == [] || !IsDigit(rest[0]))
    ensures TakeDigits(d + rest) == (d, rest)
    decreases |d|
  {
    if d != [] {
      assert (d + rest)[1..] == d[1..] + rest;
      TakeDigitsOf(d[1..], rest);
      assert [d[0]] + d[1..] == d;
    } else {
      assert d + rest == rest;
    }
  }

  /** A LIMIT clause as MySQL reads it: nothing, or a row count and an optional offset. */
  datatype LimitSpec = NoLimit | Limit(count: nat, offset: Option<nat>)

  /** Reads the pagination part at the end of a statement; `None` when it is not a LIMIT clause. */
  function ParseLimit(s: string): Option<LimitSpec> {
    if s == "" then Some(NoLimit)
    else if |s| >= 7 && s[..7] == " LIMIT " then
      var (count, rest) := TakeDigits(s[7..]);
      if count == [] then None
      else if rest == [] then Some(Limit(DigitsValue(count), None))
      else if |rest| >= 8 && rest[..8] == " OFFSET " then
        var (offset, tail) := TakeDigits(rest[8..]);
        if offset != [] && tail == [] then Some(Limit(DigitsValue(count), Some(DigitsValue(offset))))
        else None
      else None
    else None
  }

  lemma ParseLimitCount(count: nat)
    ensures ParseLimit(" LIMIT " + NatToString(count)) == Some(Limit(count, None))
  {
    var s := " LIMIT " + NatToString(count);
    assert s[..7] == " LIMIT " && s[7..] == NatToString(count);
    TakeDigitsOf(NatToString(count), []);
    assert NatToString(count) + [] == NatToString(count);
    NatToStringRoundTrip(count);
  }

  lemma ParseLimitCountOffset(count: nat, offset: nat)
    ensures ParseLimit(" LIMIT " + NatToString(count) + " OFFSET " + NatToString(offset))
         == Some(Limit(count, Some(offset)))
  {
    var c, o := NatToString(count), NatToString(offset);
    var s := " LIMIT " + c + " OFFSET " + o;
    assert s[..7] == " LIMIT " && s[7..] == c + (" OFFSET " + o);
    TakeDigitsOf(c, " OFFSET " + o);
    var rest := " OFFSET " + o;
    assert rest[..8] == " OFFSET " && rest[8..] == o;
    TakeDigitsOf(o, []);
    assert o + [] == o;
    NatToStringRoundTrip(count);
    NatToStringRoundTrip(offset);
  }

  /** What the clause emitted by `retrieve` and `count` says, read back. */
  lemma PaginationReadBack(limit: Option<nat>, offset: nat)
    ensures ParseLimit(PaginationClause(limit, offset)) == Some(
      if limit.Some? then Limit(limit.value, if offset != 0 then Some(offset) else None)
      else if offset != 0 then Limit(MaxLimit, Some(offset))
      else NoLimit)
  {
    if limit.Some? {
      if offset != 0 { ParseLimitCountOffset(limit.value, offset); } else { ParseLimitCount(limit.value); }
    } else if offset != 0 {
      ParseLimitCountOffset(MaxLimit, offset);
    }
  }

  /** The clause emitted by `update` and `delete` never carries an offset. */
  lemma LimitOnlyReadBack(limit: Option<nat>)
    ensures ParseLimit(LimitOnlyClause(limit)) == Some(if limit.Some? then Limit(limit.value, None) else NoLimit)
  {
    if limit.Some? { ParseLimitCount(limit.value); }
  }

  function Min(a: int, b: int): int {
    if a <= b then a else b
  }

  /** The rows MySQL keeps for a LIMIT clause. */
  function Window<T>(l: LimitSpec, rows: seq<T>): seq<T> {
    match l
    case NoLimit => rows
    case Limit(count, offset) =>
      var start := Min(if offset.Some? then offset.value else 0, |rows|);
      rows[start .. Min(start + count, |rows|)]
  }

  /** The rows a caller asks for: skip `offset` rows, then at most `limit` rows, or all the rest when there is no limit. */
  function Requested<T>(limit: Option<nat>, offset: nat, rows: seq<T>): seq<T> {
    var start := Min(offset, |rows|);
    if limit.Some? then rows[start .. Min(start + limit.value, |rows|)] else rows[start..]
  }

  /**
   * The pagination of `retrieve` and `count` keeps exactly the requested
   * rows, for any result of fewer than 2^64 rows: with an offset and no
   * limit, the huge row count stands for "to the end".
   */
  lemma PaginationSelectsRequested<T>(limit: Option<nat>, offset: nat, rows: seq<T>)
    requires |rows| <= MaxLimit
    ensures ParseLimit(PaginationClause(limit, offset)).Some?
    ensures Window(ParseLimit(PaginationClause(limit, offset)).value, rows) == Requested(limit, offset, rows)
    ensures limit.Some? ==> |Requested(limit, offset, rows)| <= limit.value
  {
    PaginationReadBack(limit, offset);
  }
}
